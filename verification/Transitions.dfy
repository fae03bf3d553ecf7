/** Composite steps of the allocator on values: predicates its methods speak of, and lemmas that
    lead from one valid heap to the next. */
module Transitions {
  import opened Sizes
  import opened Layout
  import opened Shelves
  import opened HeapView
  import opened Contents
  import opened Binmap
  import opened BinSearch

  /** No chunk is between two uses. */
  ghost predicate Settled(ch: Chunks) {
    forall c :: c in ch ==> !ch[c].st.Loose? && !ch[c].st.Held?
  }

  ghost predicate SettledBut(ch: Chunks, p: int) {
    forall c :: c in ch && c != p ==> !ch[c].st.Loose? && !ch[c].st.Held?
  }

  ghost predicate TopOK(v: View, top: int) {
    if v.base < v.end then top in v.ch && v.ch[top].st.Top?
    else top == Bin(1) && Rd(v.sz, top) == 0 && v.ch == map[]
  }

  /** Apart from the unsorted queue, bins only lost chunks. */
  ghost predicate Shrunk(bins: seq<List>, bins': seq<List>) {
    && |bins'| == |bins|
    && (forall i :: 2 <= i < |bins| && bins'[i] != [] ==> bins[i] != [])
  }

  lemma ShrunkTrans(a: seq<List>, b: seq<List>, c: seq<List>)
    requires Shrunk(a, b) && Shrunk(b, c)
    ensures Shrunk(a, c)
  {
  }

  lemma ShrunkRefl(bins: seq<List>)
    ensures Shrunk(bins, bins)
  {
  }

  lemma MapShrunk(m: seq<Word32>, bins: seq<List>, bins': seq<List>)
    requires MapOK(m, bins) && Shrunk(bins, bins')
    ensures MapOK(m, bins')
  {
    hide Marked;
    forall i {:trigger Noted(m, bins', i)} | 2 <= i < |bins'| ensures Noted(m, bins', i) {
      assert Noted(m, bins, i);
    }
  }

  // ------------------------------------------------------------ flags in max_fast

  predicate HaveAny(m: int) {
    m % 2 == 1
  }

  predicate HaveFast(m: int) {
    m / 2 % 2 == 1
  }

  function SetAny(m: int): int {
    if HaveAny(m) then m else m + 1
  }

  function SetFast(m: int): int {
    if HaveFast(m) then SetAny(m) else SetAny(m) + 2
  }

  function ClearFast(m: int): int {
    if HaveFast(m) then m - 2 else m
  }

  /** `max_fast` after initialisation: the largest fastbin size, with flags in its low bits. */
  const MAX_FAST: int := 80

  predicate MaxFastOK(m: int) {
    MAX_FAST <= m <= MAX_FAST + 3
  }

  lemma FlagFacts(m: int)
    requires MaxFastOK(m)
    ensures MaxFastOK(SetAny(m)) && HaveAny(SetAny(m)) && HaveFast(SetAny(m)) == HaveFast(m)
    ensures MaxFastOK(SetFast(m)) && HaveAny(SetFast(m)) && HaveFast(SetFast(m))
    ensures MaxFastOK(ClearFast(m)) && !HaveFast(ClearFast(m)) && HaveAny(ClearFast(m)) == HaveAny(m)
    ensures FastIndex(m) == FastIndex(MAX_FAST) == 8
    ensures forall size {:trigger Granule(size)} :: Granule(size) ==> (size <= m <==> size <= MAX_FAST)
  {
    assert m == 80 || m == 81 || m == 82 || m == 83;
  }

  /** The flags never miss a chunk, and fastbins beyond `max_fast` stay empty. */
  ghost predicate FlagsOK(m: int, bins: seq<List>, fast: seq<List>) {
    && MaxFastOK(m) && (HaveFast(m) ==> HaveAny(m))
    && (forall i :: 1 <= i < |bins| && bins[i] != [] ==> HaveAny(m))
    && (forall i :: 0 <= i < |fast| && fast[i] != [] ==> HaveAny(m) && HaveFast(m) && i <= 8)
  }

  /** A user's block has room for the request and little more. */
  predicate BlockOK(k: Chunk) {
    k.st.Live? ==> Request2Size(k.st.req) <= k.size <= Request2Size(k.st.req) + MINSIZE
  }

  ghost predicate BlocksOK(live: Chunks) {
    forall c :: c in live ==> BlockOK(live[c])
  }

  const TRIM_THRESHOLD: int := 256 * 1024
  const CONSOLIDATION_THRESHOLD: int := 128 * 1024

  /** Where a chunk of bin i stands in its bin. */
  lemma Locate(v: View, c: int) returns (k: int)
    requires Core(v) && c in v.ch && v.ch[c].st.Binned?
    ensures var i := v.ch[c].st.bin; InBin(v, i, k) && v.bins[i][k] == c
  {
    assert Filed(v.ch, v.bins, c);
    k :| 0 <= k < |v.bins[v.ch[c].st.bin]| && v.bins[v.ch[c].st.bin][k] == c;
  }

  lemma TopUnique(v: View, top: int, c: int)
    requires Core(v) && TopOK(v, top) && c in v.ch
    ensures v.ch[c].st.Top? <==> c == top
    ensures v.base < v.end
  {
    assert Placed(v.ch, v.base, v.end, c);
    assert Placed(v.ch, v.base, v.end, top) && Apart(v.ch, c, top) && Apart(v.ch, top, c);
  }

  /** `(x + pagemask) & ~pagemask`. */
  function RoundUp(x: int, page: int): int
    requires page > 0
  {
    (x + page - 1) / page * page
  }

  /** Where a block came from. */
  datatype Origin = FromFast | FromBin | FromRemainder | FromTop | Nowhere

  /** c is a smallest free chunk with room for nb bytes. */
  ghost predicate BestFit(pool: Chunks, nb: int, c: int) {
    && c in pool && Idle(pool[c]) && pool[c].size >= nb
    && (forall d :: d in pool && Idle(pool[d]) && pool[d].size >= nb ==> pool[c].size <= pool[d].size)
  }

  /** No free chunk has exactly nb bytes. */
  ghost predicate NoExactFit(pool: Chunks, nb: int) {
    forall d :: d in pool && Idle(pool[d]) ==> pool[d].size != nb
  }

  ghost predicate NoFast(pool: Chunks) {
    forall c :: c in pool ==> !pool[c].st.Fast?
  }

  /** The chunk c of ch0 lies within the chunk d of ch1; a block in use is unchanged. */
  predicate Covering(ch0: Chunks, ch1: Chunks, c: int, d: int) {
    && c in ch0 && d in ch1 && d <= c && Next(ch0, c) <= Next(ch1, d)
    && (ch0[c].st.Live? || ch1[d].st.Live? ==> d == c && ch1[d] == ch0[c])
  }

  /** Chunks that are not in use may have been joined, but none of their bytes is lost. */
  ghost predicate Covers(ch0: Chunks, ch1: Chunks) {
    forall c {:trigger c in ch0} :: c in ch0 ==> exists d {:trigger Covering(ch0, ch1, c, d)} ::
        Covering(ch0, ch1, c, d)
  }

  lemma CoversRefl(ch: Chunks)
    ensures Covers(ch, ch)
  {
    forall c {:trigger c in ch} | c in ch ensures exists d {:trigger Covering(ch, ch, c, d)} :: Covering(ch, ch, c, d) {
      assert Covering(ch, ch, c, c);
    }
  }

  lemma CoversTrans(a: Chunks, b: Chunks, c: Chunks)
    requires Covers(a, b) && Covers(b, c)
    ensures Covers(a, c)
  {
    forall x {:trigger x in a} | x in a ensures exists d {:trigger Covering(a, c, x, d)} :: Covering(a, c, x, d) {
      var y :| Covering(a, b, x, y);
      var z :| Covering(b, c, y, z);
      assert Covering(a, c, x, z);
    }
  }

  /** Chunks of the same sizes at the same places. */
  lemma CoversSame(ch0: Chunks, ch1: Chunks)
    requires forall c {:trigger c in ch0} :: c in ch0 ==>
               c in ch1 && ch1[c].size == ch0[c].size && (ch0[c].st.Live? || ch1[c].st.Live? ==> ch1[c] == ch0[c])
    ensures Covers(ch0, ch1)
  {
    forall c {:trigger c in ch0} | c in ch0 ensures exists d {:trigger Covering(ch0, ch1, c, d)} ::
        Covering(ch0, ch1, c, d) {
      assert Covering(ch0, ch1, c, c);
    }
  }

  /** p has absorbed n. */
  lemma CoversJoin(ch0: Chunks, ch1: Chunks, p: int, n: int, st: Status)
    requires p in ch0 && n in ch0 && n == Next(ch0, p) && !ch0[p].st.Live? && !ch0[n].st.Live? && !st.Live?
    requires ch0[p].size > 0 && ch0[n].size > 0 && ch1 == (ch0 - {n})[p := Chunk(ch0[p].size + ch0[n].size, st)]
    ensures Covers(ch0, ch1)
  {
    forall c {:trigger c in ch0} | c in ch0 ensures exists d {:trigger Covering(ch0, ch1, c, d)} ::
        Covering(ch0, ch1, c, d) {
      assert Covering(ch0, ch1, c, if c == n then p else c);
    }
  }

  /** The chunks of a heap between two operations: they tile it, no free chunk borders a free chunk or
      top, and none is between two uses. */
  ghost predicate WellFormed(ch: Chunks, base: int, end: int) {
    Tiled(ch, base, end) && Coalesced(ch) && Settled(ch)
  }

  /** No fastbin chunk has exactly nb bytes. */
  ghost predicate NoFastFit(ch: Chunks, nb: int) {
    forall c :: c in ch ==> ch[c] != Chunk(nb, Fast)
  }

  /** The heap can serve nb bytes as it is: from a fastbin, from a bin or from top. */
  ghost predicate Available(ch: Chunks, nb: int) {
    !NoFastFit(ch, nb) || !NoFit(ch, nb) || exists c :: c in ch && ch[c].st.Top? && ch[c].size >= nb + MINSIZE
  }

  /** The chunks a request is chosen from.  A small request that the heap can serve as it is sees the chunks of
      the heap; every other request sees what `malloc_consolidate` leaves of them: the blocks in use are the
      same, fastbins are empty, and all free neighbours are joined. */
  ghost predicate PoolOf(ch0: Chunks, base: int, end: int, pool: Chunks, nb: int) {
    && WellFormed(pool, base, end) && LiveMap(pool) == LiveMap(ch0) && Covers(ch0, pool)
    && (if nb < MIN_LARGE_SIZE && Available(ch0, nb) then Rebinned(ch0, pool) else NoFast(pool))
  }

  /** What a request of nb bytes takes of a chunk: all of it, if the rest could not be a chunk. */
  function Portion(size: int, nb: int): int {
    if size < nb + MINSIZE then size else nb
  }

  /** The policy of `malloc` for nb padded bytes: a fastbin chunk of that size; else the last remainder,
      for a small request without an exact fit; else the smallest free chunk that fits; and top only
      if none does.  The block exceeds nb by less than MINSIZE and no other block changes. */
  ghost predicate Chosen(ch0: Chunks, pool: Chunks, ch': Chunks, p: int, nb: int, req: nat, how: Origin) {
    && p in ch' && nb <= ch'[p].size < nb + MINSIZE && Taken(ch0, ch', p, ch'[p].size, req)
    && (how == FromFast || NoFastFit(ch0, nb))
    && match how
       case FromFast => p in ch0 && ch0[p] == Chunk(nb, Fast) && ch'[p].size == nb
       case FromBin => BestFit(pool, nb, p) && ch'[p].size == Portion(pool[p].size, nb)
       case FromRemainder => FromRest(pool, nb, p) && ch'[p].size == nb
       case FromTop => NoFit(pool, nb) && OnTop(pool, p) && ch'[p].size == nb
       case Nowhere => false
  }

  /** The last remainder may serve a small request without an exact fit. */
  ghost predicate FromRest(pool: Chunks, nb: int, p: int) {
    nb < MIN_LARGE_SIZE && p in pool && Idle(pool[p]) && pool[p].size > nb + MINSIZE && NoExactFit(pool, nb)
  }

  /** p is top, unless there is no heap yet. */
  predicate OnTop(pool: Chunks, p: int) {
    pool == map[] || (p in pool && pool[p].st.Top?)
  }

  /** A request of nb padded bytes was served from a bin: by the best fit, or, for a small request
      without an exact fit, from the last remainder. The block exceeds nb by less than MINSIZE. */
  ghost predicate Served(pool: Chunks, ch': Chunks, p: int, nb: int, req: nat, how: Origin) {
    && p in ch' && nb <= ch'[p].size < nb + MINSIZE && Taken(pool, ch', p, ch'[p].size, req)
    && match how
       case FromBin => BestFit(pool, nb, p) && ch'[p].size == Portion(pool[p].size, nb)
       case FromRemainder => FromRest(pool, nb, p) && ch'[p].size == nb
       case _ => false
  }

  /** The case for the last remainder lr: it is the chunk of the unsorted queue that is looked at last, nothing
      fits a small request exactly, and it is large enough to leave a chunk behind. */
  ghost predicate RemainderDue(v: View, lr: int, nb: int) {
    |v.bins| > 1 && v.bins[1] != [] && v.bins[1][0] == lr && FromRest(v.ch, nb, lr)
  }

  /** Chunks moved between bins, and nothing else. */
  ghost predicate Rebinned(ch: Chunks, ch': Chunks) {
    && ch'.Keys == ch.Keys
    && (forall c {:trigger ch'[c]} {:trigger ch[c]} :: c in ch ==>
          ch'[c].size == ch[c].size && (ch'[c].st == ch[c].st || (ch'[c].st.Binned? && ch[c].st.Binned?)))
  }

  /** `set_foot`: repeat the size s of the free chunk p behind it. */
  function SetFoot(psz: Words, p: int, s: int): Words {
    psz[p + s := s]
  }

  /** `set_head` on the two parts of a split chunk. */
  function CutHeads(sz: Words, c: int, k: int, rest: int): Words {
    sz[c := k + 1][c + k := rest + 1]
  }

  /** The list with header h holds r alone; used for both link words. */
  function OnlyNode(links: Words, h: int, r: int): Words {
    links[h := r][r := h]
  }

  /** Set the in-use bit of a size word. */
  function SetLow(w: int): int {
    if PrevInuse(w) then w else w + 1
  }

  /** One new block; every other block is as before. */
  ghost predicate Taken(ch: Chunks, ch': Chunks, p: int, size: int, req: nat) {
    && p !in LiveMap(ch) && LiveMap(ch') == LiveMap(ch)[p := Chunk(size, Live(req))]
    && p in ch' && ch'[p] == Chunk(size, Live(req))
  }

  lemma WholeView(v: View, i: int, k: int, req: nat) returns (w: View)
    requires Core(v) && Settled(v.ch) && InBin(v, i, k)
    ensures var c := v.bins[i][k]; var n := c + v.ch[c].size;
            && w.ch == v.ch[c := Chunk(v.ch[c].size, Live(req))]
            && w == v.(ch := w.ch, bins := w.bins, sz := v.sz[n := SetLow(Rd(v.sz, n))],
                       fd := Unlinked(v, i, k).fd, bk := Unlinked(v, i, k).bk)
            && w.bins == v.bins[i := Without(v.bins[i], k)]
    ensures Core(w) && Shrunk(v.bins, w.bins) && Taken(v.ch, w.ch, v.bins[i][k], v.ch[v.bins[i][k]].size, req)
    ensures Settled(w.ch)
    ensures forall t :: TopOK(v, t) ==> TopOK(w, t)
  {
    hide Core, Granule, Word, ChunkSize, PrevInuse;
    var c := v.bins[i][k];
    UnlinkedCore(v, i, k);
    NextFacts(v, c);
    HeaderFacts(v, Next(v.ch, c));
    var u := Unlinked(v, i, k);
    WokenCore(u, c, Live(req));
    w := Woken(u, c, Live(req));
    assert c !in LiveMap(v.ch);
  }

  lemma RingFacts(w: View, i: int)
    requires Core(w) && 1 <= i < NBINS && |w.bins| == NBINS
    ensures Bin(i) !in w.bins[i]
    ensures Rd(w.fd, Bin(i)) == Node(Bin(i), w.bins[i], 0) && Rd(w.bk, Bin(i)) ==
            Node(Bin(i), w.bins[i], |w.bins[i]| - 1)
    ensures (Rd(w.fd, Bin(i)) == Bin(i) <==> w.bins[i] == []) && (Rd(w.bk, Bin(i)) == Bin(i) <==> w.bins[i] == [])
  {
    assert BinHolds(w.ch, w.bins, i);
    assert Bin(i) < 0;
    EmptyRing(w.fd, w.bk, w.bins, i);
    if w.bins[i] != [] { assert w.bins[i][0] in w.bins[i]; }
  }

  /** What is known of a chunk in a bin. */
  lemma BinElement(w: View, i: int, k: int)
    requires Core(w) && 1 <= i < NBINS && |w.bins| == NBINS && 0 <= k < |w.bins[i]|
    ensures var c := w.bins[i][k];
            && InBin(w, i, k) && c > 0 && w.ch[c].st == Binned(i) && Rd(w.sz, c) == w.ch[c].size + 1
            && Rd(w.fd, c) == Node(Bin(i), w.bins[i], k + 1) && Rd(w.bk, c) == Node(Bin(i), w.bins[i], k - 1)
            && w.ch[c].size >= MINSIZE && c + w.ch[c].size <= w.end && w.base <= c && Granule(w.ch[c].size)
            && ChunkSize(Rd(w.sz, c)) == w.ch[c].size
            && (i >= 2 ==> BinIndex(w.ch[c].size) == i)
  {
    hide BinIndex, Granule, Word;
    assert BinHolds(w.ch, w.bins, i);
    assert w.bins[i][k] in w.bins[i];
    assert InBin(w, i, k);
    UnlinkedCore(w, i, k);
    HeaderFacts(w, w.bins[i][k]);
    if i >= 2 { assert SortedBin(w.ch, w.bins, i); }
  }

  /** The number of chunks at the front of s that are larger than size. */
  ghost function Larger(ch: Chunks, s: List, size: int): (k: nat)
    ensures k <= |s|
  {
    if s != [] && s[0] in ch && ch[s[0]].size > size then 1 + Larger(ch, s[1..], size) else 0
  }

  /** Where the code puts a chunk of the given size: at the front of a small bin; in a large bin, behind
      everything if it is no larger than the last chunk, and else right behind all larger chunks. */
  ghost function Place(ch: Chunks, s: List, size: int): (k: nat)
    ensures k <= |s|
  {
    if size < MIN_LARGE_SIZE || s == [] then 0
    else if s[|s| - 1] in ch && size <= ch[s[|s| - 1]].size then |s|
    else Larger(ch, s, size)
  }

  lemma {:induction false} LargerIs(ch: Chunks, s: List, size: int, k: nat)
    requires k <= |s| && forall j :: 0 <= j < k ==> s[j] in ch && ch[s[j]].size > size
    requires k < |s| ==> s[k] in ch && ch[s[k]].size <= size
    ensures Larger(ch, s, size) == k
  {
    if k > 0 {
      LargerIs(ch, s[1..], size, k - 1);
    }
  }

  lemma {:induction false} LargerSame(ch: Chunks, ch': Chunks, s: List, size: int)
    requires ch'.Keys == ch.Keys && forall c :: c in ch ==> ch'[c].size == ch[c].size
    ensures Larger(ch', s, size) == Larger(ch, s, size) && Place(ch', s, size) == Place(ch, s, size)
  {
    if s != [] { LargerSame(ch, ch', s[1..], size); }
  }

  /** A bin in size order. */
  ghost predicate Descending(ch: Chunks, s: List) {
    && (forall j :: 0 <= j < |s| ==> s[j] in ch)
    && (forall j, k :: 0 <= j < k < |s| && s[j] in ch && s[k] in ch ==> ch[s[j]].size >= ch[s[k]].size)
  }

  /** At k, a chunk of the given size comes in front of all chunks of its size. */
  ghost predicate InFront(ch: Chunks, s: List, size: int, k: int) {
    forall j :: 0 <= j < |s| && s[j] in ch && ch[s[j]].size == size ==> k <= j
  }

  /** At k, it comes behind all of them. */
  ghost predicate AtBack(ch: Chunks, s: List, size: int, k: int) {
    forall j :: 0 <= j < |s| && s[j] in ch && ch[s[j]].size == size ==> j < k
  }

  lemma {:induction false} LargerFacts(ch: Chunks, s: List, size: int)
    requires Descending(ch, s)
    ensures var k := Larger(ch, s, size);
            (forall j :: 0 <= j < k ==> ch[s[j]].size > size) && (k < |s| ==> ch[s[k]].size <= size)
  {
    if s != [] && ch[s[0]].size > size {
      LargerFacts(ch, s[1..], size);
      var k := Larger(ch, s, size);
      forall j | 0 <= j < k ensures ch[s[j]].size > size { if j > 0 { assert s[1..][j - 1] == s[j]; } }
    }
  }

  /** The documentation puts the most recently freed chunk in front of those of its size, so that the one
      freed longest ago is taken first.  Among chunks of its size, the code does so exactly in a small bin, or
      if the chunk is not as small as the smallest; then it goes behind all of them and is taken first. */
  lemma TieRule(ch: Chunks, s: List, size: int)
    requires Descending(ch, s) && exists j :: 0 <= j < |s| && s[j] in ch && ch[s[j]].size == size
    ensures s != [] && s[|s| - 1] in ch
    ensures InFront(ch, s, size, Place(ch, s, size)) <==> size < MIN_LARGE_SIZE || size != ch[s[|s| - 1]].size
    ensures AtBack(ch, s, size, Place(ch, s, size)) <==> size >= MIN_LARGE_SIZE && size == ch[s[|s| - 1]].size
  {
    var j :| 0 <= j < |s| && s[j] in ch && ch[s[j]].size == size;
    LargerFacts(ch, s, size);
    var k, last := Place(ch, s, size), |s| - 1;
    assert j < last ==> ch[s[j]].size >= ch[s[last]].size;
    if size >= MIN_LARGE_SIZE && size != ch[s[last]].size {
      assert k == Larger(ch, s, size);
      assert forall m :: 0 <= m < |s| && s[m] in ch && ch[s[m]].size == size ==> k <= m;
    }
    assert s[last] in ch;
  }

  /** A bin with one chunk of 1024 bytes: a second one is put behind it and will be taken before it. */
  lemma TieAtBack(ch: Chunks, c: int)
    requires c in ch && ch[c].size == 1024
    ensures Place(ch, [c], 1024) == 1 && !InFront(ch, [c], 1024, Place(ch, [c], 1024))
  {
    assert [c][0] == c;
  }

  lemma SmallBinFits(w: View, i: int, size: int)
    requires Core(w) && 2 <= i < NBINS && |w.bins| == NBINS && LegalSize(size) && size < MIN_LARGE_SIZE
             && BinIndex(size) == i
    requires w.end - w.base < WORD32
    ensures Fits(w.ch, w.bins[i], i, 0, size)
  {
    hide LargeBinIndex, Core;
    forall j | 0 <= j < |w.bins[i]| && w.bins[i][j] in w.ch ensures size >= w.ch[w.bins[i][j]].size {
      BinElement(w, i, j);
      BinIndexRange(size);
      BinsOrderSizes(size, w.ch[w.bins[i][j]].size);
    }
  }

  lemma SmallestFits(w: View, i: int, size: int)
    requires Core(w) && 2 <= i < NBINS && |w.bins| == NBINS && size >= 0 && BinIndex(size) == i && w.bins[i] != []
    requires w.bins[i][|w.bins[i]| - 1] in w.ch && size <= w.ch[w.bins[i][|w.bins[i]| - 1]].size
    ensures Fits(w.ch, w.bins[i], i, |w.bins[i]|, size)
  {
    hide BinIndex;
    assert SortedBin(w.ch, w.bins, i);
  }

  lemma RestFits(w: View, i: int, k: int, size: int)
    requires Core(w) && 2 <= i < NBINS && |w.bins| == NBINS && size >= 0 && BinIndex(size) == i && 0 <= k < |w.bins[i]|
    requires w.bins[i][k] in w.ch && size >= w.ch[w.bins[i][k]].size
    requires forall j :: 0 <= j < k && w.bins[i][j] in w.ch ==> w.ch[w.bins[i][j]].size > size
    ensures Fits(w.ch, w.bins[i], i, k, size)
  {
    hide BinIndex;
    assert SortedBin(w.ch, w.bins, i);
  }

  lemma FlagsBound(m: int, bins: seq<List>, fast: seq<List>)
    requires FlagsOK(m, bins, fast)
    ensures MaxFastOK(m) && (HaveFast(m) ==> HaveAny(m))
  {
  }

  /** The released bytes leave at least a minimal top. */
  lemma KeepsTop(size: int, page: int)
    requires size >= MINSIZE && page > 0
    ensures ((size - MINSIZE + (page - 1)) / page - 1) * page <= size - MINSIZE
  {
    var q := (size - MINSIZE + (page - 1)) / page;
    assert q * page <= size - MINSIZE + (page - 1);
    assert (q - 1) * page == q * page - page;
  }

  lemma TopEnds(v: View, top: int)
    requires Core(v) && TopOK(v, top) && v.base < v.end
    ensures Next(v.ch, top) == v.end
  {
    assert Placed(v.ch, v.base, v.end, top);
  }

  lemma TopWords(top: int, brk: int)
    requires Granule(top) && Word(brk)
    ensures Word(brk - top)
  {
    GranuleSum(brk, top);
  }

  lemma FastHead(w: View, i: int)
    requires Core(w) && 0 <= i < NFASTBINS && |w.fast| == |w.heads| == NFASTBINS
    ensures w.heads[i] == 0 <==> w.fast[i] == []
    ensures w.fast[i] != [] ==> w.heads[i] == w.fast[i][0]
  {
    assert ChainAt(w.fd, w.heads, w.fast, i) && FastHolds(w.ch, w.fast, i);
    if w.fast[i] != [] { assert w.fast[i][0] in w.fast[i]; }
  }

  /** The list without c. */
  function Minus(s: List, c: int): List {
    if s == [] then [] else Minus(s[..|s| - 1], c) + if s[|s| - 1] == c then [] else [s[|s| - 1]]
  }

  /** c leaves its bin. */
  function Off(bins: seq<List>, c: int): (r: seq<List>)
    ensures |r| == |bins|
  {
    seq(|bins|, i requires 0 <= i < |bins| => Minus(bins[i], c))
  }

  lemma {:induction false} MinusAbsent(s: List, c: int)
    requires c !in s
    ensures Minus(s, c) == s
  {
    if s != [] {
      MinusAbsent(s[..|s| - 1], c);
      assert s == s[..|s| - 1] + [s[|s| - 1]];
    }
  }

  lemma {:induction false} MinusAt(s: List, k: int)
    requires NoDup(s) && 0 <= k < |s|
    ensures Minus(s, s[k]) == Without(s, k)
  {
    var n := |s| - 1;
    if k == n {
      MinusAbsent(s[..n], s[n]);
    } else {
      MinusAt(s[..n], k);
      assert Without(s, k) == Without(s[..n], k) + [s[n]];
    }
  }

  lemma OffAbsent(v: View, c: int)
    requires Core(v) && (c in v.ch ==> !v.ch[c].st.Binned?)
    ensures Off(v.bins, c) == v.bins
  {
    forall i | 0 <= i < |v.bins| ensures Minus(v.bins[i], c) == v.bins[i] {
      assert BinHolds(v.ch, v.bins, i);
      MinusAbsent(v.bins[i], c);
    }
  }

  lemma OffAt(v: View, i: int, k: int)
    requires Core(v) && InBin(v, i, k)
    ensures v.bins[i := Without(v.bins[i], k)] == Off(v.bins, v.bins[i][k])
  {
    var c := v.bins[i][k];
    forall j | 0 <= j < |v.bins| ensures Minus(v.bins[j], c) == v.bins[i := Without(v.bins[i], k)][j] {
      assert BinHolds(v.ch, v.bins, j) && BinHolds(v.ch, v.bins, i);
      assert c in v.bins[i];
      if j == i { MinusAt(v.bins[i], k); } else { MinusAbsent(v.bins[j], c); }
    }
  }

  /** In front of the unsorted queue. */
  function Queue(bins: seq<List>, c: int): (r: seq<List>)
    ensures |r| == |bins|
  {
    if |bins| > 1 then bins[1 := [c] + bins[1]] else bins
  }

  lemma DrainStart(fast: seq<List>, heads: seq<int>, i: int)
    requires 0 <= i < |fast| == |heads|
    ensures fast[i := fast[i][0..]] == fast && heads[i := 0][i := heads[i]] == heads
  {
    assert fast[i][0..] == fast[i];
  }

  lemma DrainStep(fast: seq<List>, heads: seq<int>, i: int, order: List, k: int, p: int, q: int)
    requires 0 <= i < |fast| == |heads| && 0 <= k < |order|
    ensures fast[i := order[k..]][i := order[k..][1..]] == fast[i := order[k + 1..]]
    ensures heads[i := p][i := q] == heads[i := q]
  {
    assert order[k..][1..] == order[k + 1..];
  }

  /** The first chunk of fastbin i is taken out, still tagged in use. */
  lemma PopHeld(w0: View, i: int) returns (w: View)
    requires Core(w0) && Settled(w0.ch) && 0 <= i < NFASTBINS && |w0.fast| == |w0.heads| && w0.fast[i] != []
    ensures w0.heads[i] in w0.ch && w0.ch[w0.heads[i]].st.Fast?
    ensures var p := w0.heads[i];
            && w.ch == w0.ch[p := Chunk(w0.ch[p].size, Held)]
            && w == w0.(ch := w.ch, fast := w0.fast[i := w0.fast[i][1..]], heads := w0.heads[i := Rd(w0.fd, p)])
    ensures Core(w) && SettledBut(w.ch, w0.heads[i]) && LiveMap(w.ch) == LiveMap(w0.ch) && Covers(w0.ch, w.ch)
  {
    hide Core, FastIndex, Covers;
    CoreShape(w0);
    FastPoppedCore(w0, i, Held);
    w := FastPopped(w0, i, Held);
    CoversSame(w0.ch, w.ch);
  }

  /** The heap in which the held chunk p has absorbed the free chunk behind it, whose header n has been
      overwritten before. */
  lemma AbsorbNext(w0: View, p: int, k: int) returns (w: View)
    requires Core(w0) && p in w0.ch && w0.ch[p].st.Held? && FrontUsed(w0.ch, w0.sz, p) && SettledBut(w0.ch, p)
    requires Next(w0.ch, p) in w0.ch && w0.ch[Next(w0.ch, p)].st.Binned?
    requires var i := w0.ch[Next(w0.ch, p)].st.bin; InBin(w0, i, k) && w0.bins[i][k] == Next(w0.ch, p)
    ensures var n, i := Next(w0.ch, p), w0.ch[Next(w0.ch, p)].st.bin; var size := w0.ch[p].size + w0.ch[n].size;
            && w == w0.(ch := w.ch, bins := w.bins, sz := w0.sz[n := w0.ch[n].size][p := size + 1],
              psz := w0.psz[p + size := size],
                        fd := Unlinked(w0, i, k).fd, bk := Unlinked(w0, i, k).bk)
            && w.ch == (w0.ch - {n})[p := Chunk(size, Loose)] && w.bins == Off(w0.bins, n)
    ensures Core(w) && LiveMap(w.ch) == LiveMap(w0.ch) && Shrunk(w0.bins, w.bins) && Covers(w0.ch, w.ch)
  {
    hide Granule, Word, ChunkSize, PrevInuse, Core, Covers, Off;
    var n := Next(w0.ch, p);
    var i := w0.ch[n].st.bin;
    OffAt(w0, i, k);
    HeaderFacts(w0, p);
    HeaderFacts(w0, n);
    UnlinkedCore(w0, i, k);
    w := Unlinked(w0, i, k);
    NotLiveBare(w, p);
    NotLiveBare(w, n);
    StoredAway(w0);
    MergedCore(w, p, Loose);
    w := Merged(w, p, Loose);
    var sz := w0.sz[n := w0.ch[n].size][p := w.ch[p].size + 1];
    RetaggedCore(w, sz, w.psz);
    w := w.(sz := sz);
    CoversJoin(w0.ch, w.ch, p, n, Loose);
  }

  /** The heap in which the held chunk p0 and the free chunk in front of it are one held chunk. */
  lemma AbsorbFront(w0: View, p0: int, p: int, k: int) returns (w: View)
    requires Core(w0) && p0 in w0.ch && w0.ch[p0].st.Held? && SettledBut(w0.ch, p0)
    requires p in w0.ch && w0.ch[p].st.Binned? && Next(w0.ch, p) == p0 && FrontUsed(w0.ch, w0.sz, p)
    requires var i := w0.ch[p].st.bin; InBin(w0, i, k) && w0.bins[i][k] == p
    ensures var i, size := w0.ch[p].st.bin, w0.ch[p].size + w0.ch[p0].size;
            && w.ch == (w0.ch - {p0})[p := Chunk(size, Held)] && w.bins == Off(w0.bins, p)
            && w == w0.(ch := w.ch, bins := w.bins, sz := w0.sz[p := size + 1], fd := Unlinked(w0, i, k).fd,
              bk := Unlinked(w0, i, k).bk)
    ensures Core(w) && LiveMap(w.ch) == LiveMap(w0.ch) && Shrunk(w0.bins, w.bins) && SettledBut(w.ch, p)
            && Covers(w0.ch, w.ch)
  {
    hide Granule, Word, ChunkSize, PrevInuse, Core, LiveMap, Covers, Off;
    var i := w0.ch[p].st.bin;
    OffAt(w0, i, k);
    UnlinkedCore(w0, i, k);
    var u := Unlinked(w0, i, k);
    HeaderFacts(w0, p);
    NotLiveBare(u, p);
    NotLiveBare(u, p0);
    MergedCore(u, p, Held);
    w := Merged(u, p, Held);
    HeaderFacts(w0, p0);
    JoinedLive(w0.ch, w.ch, p, p0);
    CoversJoin(w0.ch, w.ch, p, p0, Held);
  }

  lemma JoinedLive(ch: Chunks, ch': Chunks, p: int, n: int)
    requires p in ch && n in ch && !ch[p].st.Live? && !ch[n].st.Live? && p != n
    requires ch' == (ch - {n})[p := Chunk(ch[p].size + ch[n].size, Held)]
    ensures LiveMap(ch') == LiveMap(ch)
  {
  }

  /** The heap in which the held chunk p, between used chunks, is tagged free. */
  lemma FreeAlone(w0: View, p: int) returns (w: View)
    requires Core(w0) && p in w0.ch && w0.ch[p].st.Held? && FrontUsed(w0.ch, w0.sz, p)
    requires Next(w0.ch, p) in w0.ch && !Idle(w0.ch[Next(w0.ch, p)]) && !w0.ch[Next(w0.ch, p)].st.Top?
    ensures var n := Next(w0.ch, p);
            && w == w0.(ch := w.ch, sz := w0.sz[n := w0.ch[n].size], psz := w0.psz[n := w0.ch[p].size])
            && w.ch == w0.ch[p := Chunk(w0.ch[p].size, Loose)]
    ensures Core(w) && LiveMap(w.ch) == LiveMap(w0.ch) && Covers(w0.ch, w.ch)
  {
    hide Granule, Word, ChunkSize, PrevInuse, Core, Covers;
    SleptCore(w0, p);
    w := Slept(w0, p);
    CoversSame(w0.ch, w.ch);
  }

  /** The block p, or a chunk held already, is held. */
  lemma HeldView(v: View, top: int, p: int) returns (w: View)
    requires Core(v) && TopOK(v, top) && SettledBut(v.ch, p) && p in v.ch && (v.ch[p].st.Live? || v.ch[p].st.Held?)
    requires Bare(v.stored, p)
    ensures w == v.(ch := Mark(v.ch, p, Held)) && Core(w) && TopOK(w, top) && SettledBut(w.ch, p) && v.base < v.end
    ensures p in w.ch && w.ch[p].st.Held? && LiveMap(w.ch) == LiveMap(v.ch) - {p}
  {
    hide Core, Granule, Word;
    TopUnique(v, top, p);
    MarkedCore(v, p, Held);
    w := v.(ch := Mark(v.ch, p, Held));
  }

  lemma FlagsFreed(m: int, bins: seq<List>, bins': seq<List>, fast: seq<List>)
    requires FlagsOK(m, bins, fast)
    ensures FlagsOK(SetAny(m), bins', fast)
  {
    hide HaveAny, HaveFast, SetAny;
    FlagFacts(m);
  }

  lemma FlagsPushed(m: int, bins: seq<List>, fast: seq<List>, i: int, c: int)
    requires FlagsOK(m, bins, fast) && 0 <= i <= 8 && i < |fast|
    ensures FlagsOK(SetFast(m), bins, fast[i := [c] + fast[i]])
  {
    hide HaveAny, HaveFast, SetFast;
    FlagFacts(m);
  }

  /** The chunk p goes to the front of its fastbin. */
  lemma PushView(v: View, top: int, p: int) returns (w: View)
    requires Core(v) && TopOK(v, top) && SettledBut(v.ch, p) && p in v.ch && (v.ch[p].st.Live? || v.ch[p].st.Held?)
    requires v.ch[p].size <= MAX_FAST && Bare(v.stored, p)
    ensures var i := FastIndex(v.ch[p].size);
            && 0 <= i <= 8 && |v.fast| == |v.heads| == NFASTBINS && w.fast == v.fast[i := [p] + v.fast[i]]
            && w.ch == v.ch[p := Chunk(v.ch[p].size, Fast)]
            && w == v.(ch := w.ch, fast := w.fast, fd := v.fd[p := v.heads[i]], heads := v.heads[i := p])
    ensures Core(w) && TopOK(w, top) && Settled(w.ch) && LiveMap(w.ch) == LiveMap(v.ch) - {p}
  {
    hide Core, Granule, Word;
    HeaderFacts(v, p);
    TopUnique(v, top, p);
    CoreShape(v);
    FastPushedCore(v, FastIndex(v.ch[p].size), p);
    w := FastPushed(v, FastIndex(v.ch[p].size), p);
  }

  /** A word written twice, with another one in between. */
  lemma Overwritten(m: Words, p: int, n: int, a: int, b: int, c: int)
    requires p != n
    ensures m[p := a][n := b][p := c] == m[n := b][p := c]
    ensures m[p := a][n := b] == m[n := b][p := a]
  {
  }

  lemma Queued(w0: View, p: int) returns (w: View)
    requires Core(w0) && p in w0.ch && w0.ch[p].st.Loose? && |w0.bins| == NBINS
    ensures w.ch == w0.ch[p := Chunk(w0.ch[p].size, Binned(1))] && w.bins == Queue(w0.bins, p)
    ensures w == w0.(ch := w.ch, bins := w.bins, fd := Inserted(w0, 1, 0, p).fd, bk := Inserted(w0, 1, 0, p).bk)
    ensures Core(w) && LiveMap(w.ch) == LiveMap(w0.ch) && Shrunk(w0.bins, w.bins) && Covers(w0.ch, w.ch)
  {
    hide Core, BinIndex, Covers;
    InsertedCore(w0, 1, 0, p);
    assert InsertAt(w0.bins[1], 0, p) == [p] + w0.bins[1];
    w := Inserted(w0, 1, 0, p);
    CoversSame(w0.ch, w.ch);
  }

  /** The heap in which the held chunk in front of top has become part of top. */
  lemma JoinTop(w0: View, p: int) returns (w: View)
    requires Core(w0) && p in w0.ch && w0.ch[p].st.Held? && FrontUsed(w0.ch, w0.sz, p) && SettledBut(w0.ch, p)
    requires Next(w0.ch, p) in w0.ch && w0.ch[Next(w0.ch, p)].st.Top?
    ensures w0.base < w0.end && Core(w) && Settled(w.ch) && LiveMap(w.ch) == LiveMap(w0.ch) && Covers(w0.ch, w.ch)
    ensures var n := Next(w0.ch, p); w.ch == (w0.ch - {n})[p := Chunk(w0.ch[p].size + w0.ch[n].size, Top)]
    ensures w == w0.(ch := w.ch, sz := w0.sz[p := w.ch[p].size + 1])
  {
    hide Granule, Word, ChunkSize, PrevInuse, Core, Covers;
    HeaderFacts(w0, p);
    HeaderFacts(w0, Next(w0.ch, p));
    NotLiveBare(w0, p);
    NotLiveBare(w0, Next(w0.ch, p));
    MergedCore(w0, p, Top);
    w := Merged(w0, p, Top);
    CoversJoin(w0.ch, w.ch, p, Next(w0.ch, p), Top);
  }

  /** Taking a block from a bin keeps bitmap, flags and block sizes right. */
  lemma AfterTake(v: View, w: View, map0: seq<Word32>, m: int, i: int, k: int, size: int, req: nat)
    requires MapOK(map0, v.bins) && FlagsOK(m, v.bins, v.fast) && BlocksOK(LiveMap(v.ch))
    requires InBin(v, i, k) && Shrunk(v.bins, w.bins) && w.fast == v.fast
    requires Taken(v.ch, w.ch, v.bins[i][k], size, req) && Request2Size(req) <= size <= Request2Size(req) + MINSIZE
    ensures MapOK(map0, w.bins) && FlagsOK(m, w.bins, w.fast) && BlocksOK(LiveMap(w.ch))
  {
    hide MapOK, Request2Size, HaveAny, HaveFast;
    MapShrunk(map0, v.bins, w.bins);
  }

  lemma HeaderMoves(m: Words, h: int, r: int)
    requires h != r
    ensures m[h := h][r := h][h := r] == OnlyNode(m, h, r) == m[r := h][h := r]
  {
  }

  lemma FrontView(v: View, i: int, k: int, nb: int, req: nat) returns (w: View)
    requires Core(v) && Settled(v.ch) && InBin(v, i, k) && nb >= MINSIZE && Granule(nb)
    requires v.ch[v.bins[i][k]].size - nb >= MINSIZE
    requires if i == 1 then |v.bins[1]| == 1 else v.bins[1] == []
    ensures var c := v.bins[i][k]; var r, rs := c + nb, v.ch[c].size - nb;
            && w.ch == v.ch[c := Chunk(nb, Live(req))][r := Chunk(rs, Binned(1))] && r !in v.ch && r > 0
            && w == v.(ch := w.ch, bins := w.bins, sz := CutHeads(v.sz, c, nb, rs), psz := SetFoot(v.psz, r, rs),
                       fd := OnlyNode(Unlinked(v, i, k).fd, Bin(1), r), bk := OnlyNode(Unlinked(v, i, k).bk, Bin(1), r))
            && w.bins == v.bins[i := Without(v.bins[i], k)][1 := [r]]
    ensures Core(w) && Shrunk(v.bins, w.bins) && Taken(v.ch, w.ch, v.bins[i][k], nb, req)
    ensures Settled(w.ch)
    ensures forall t :: TopOK(v, t) ==> TopOK(w, t)
  {
    hide Core, Granule, Word, ChunkSize, PrevInuse, BinIndex, Settled, LiveMap, Unlinked, CutHeads, SetFoot, OnlyNode;
    var c := v.bins[i][k];
    var u := CutFront(v, i, k, nb, req);
    HeaderMoves(Unlinked(v, i, k).fd, Bin(1), c + nb);
    HeaderMoves(Unlinked(v, i, k).bk, Bin(1), c + nb);
    assert u.bins[1] == [];
    InsertedCore(u, 1, 0, c + nb);
    w := Inserted(u, 1, 0, c + nb);
    assert InsertAt([], 0, c + nb) == [c + nb];
    assert w.ch == v.ch[c := Chunk(nb, Live(req))][c + nb := Chunk(v.ch[c].size - nb, Binned(1))];
    FrontTaken(v.ch, w.ch, c, nb, req);
    FrontShrunk(v.bins, i, k, c + nb);
  }

  /** The chunk taken off its bin and cut; the rest is in no list yet. */
  lemma CutFront(v: View, i: int, k: int, nb: int, req: nat) returns (u: View)
    requires Core(v) && InBin(v, i, k) && nb >= MINSIZE && Granule(nb) && v.ch[v.bins[i][k]].size - nb >= MINSIZE
    ensures var c := v.bins[i][k]; var r, rs := c + nb, v.ch[c].size - nb;
            && v.ch[c].st.Binned? && r !in v.ch && r > 0 && u.ch == v.ch[c := Chunk(nb, Live(req))][r := Chunk(rs,
              Loose)]
            && u == v.(ch := u.ch, bins := v.bins[i := Without(v.bins[i], k)], sz := CutHeads(v.sz, c, nb, rs),
              psz := SetFoot(v.psz, r, rs),
                       fd := Unlinked(v, i, k).fd, bk := Unlinked(v, i, k).bk)
    ensures Core(u) && LiveMap(u.ch) == LiveMap(v.ch)[v.bins[i][k] := Chunk(nb, Live(req))]
  {
    hide Core, Granule, Word, ChunkSize, PrevInuse, BinIndex;
    var c := v.bins[i][k];
    BinElement(v, i, k);
    UnlinkedCore(v, i, k);
    u := Unlinked(v, i, k);
    NotLiveBare(u, c);
    CarvedCore(u, c, nb, Live(req), Loose);
    u := Carved(u, c, nb, Live(req), Loose);
  }

  lemma FrontTaken(ch: Chunks, ch': Chunks, c: int, nb: int, req: nat)
    requires Settled(ch) && c in ch && ch[c].st.Binned? && c + nb !in ch && nb > 0
    requires LiveMap(ch') == LiveMap(ch)[c := Chunk(nb, Live(req))]
    requires ch' == ch[c := Chunk(nb, Live(req))][c + nb := Chunk(ch[c].size - nb, Binned(1))]
    ensures Settled(ch') && Taken(ch, ch', c, nb, req)
  {
  }

  lemma FrontShrunk(bins: seq<List>, i: int, k: int, r: int)
    requires 1 <= i < |bins| && |bins| > 1 && 0 <= k < |bins[i]|
    ensures Shrunk(bins, bins[i := Without(bins[i], k)][1 := [r]])
  {
  }

  /** The same for the only chunk of the unsorted queue. */
  lemma RemainderView(v: View, nb: int, req: nat) returns (w: View)
    requires Core(v) && Settled(v.ch) && InBin(v, 1, 0) && nb >= MINSIZE && Granule(nb) && |v.bins[1]| == 1
    requires v.ch[v.bins[1][0]].size - nb >= MINSIZE
    ensures var c := v.bins[1][0]; var r, rs := c + nb, v.ch[c].size - nb;
            && w == v.(ch := w.ch, bins := w.bins, sz := CutHeads(v.sz, c, nb, rs), psz := SetFoot(v.psz, r, rs),
                       fd := OnlyNode(v.fd, Bin(1), r), bk := OnlyNode(v.bk, Bin(1), r))
            && w.ch == v.ch[c := Chunk(nb, Live(req))][r := Chunk(rs, Binned(1))] && w.bins == v.bins[1 := [r]]
    ensures Core(w) && Shrunk(v.bins, w.bins) && Taken(v.ch, w.ch, v.bins[1][0], nb, req)
    ensures Settled(w.ch)
    ensures forall t :: TopOK(v, t) ==> TopOK(w, t)
  {
    hide Core, Granule, Word, CutHeads, SetFoot, Taken, TopOK, Settled, Shrunk;
    w := FrontView(v, 1, 0, nb, req);
    var r := v.bins[1][0] + nb;
    assert Node(Bin(1), v.bins[1], -1) == Node(Bin(1), v.bins[1], 1) == Bin(1);
    HeaderMoves(v.fd, Bin(1), r);
    HeaderMoves(v.bk, Bin(1), r);
    HeaderMoves(v.fd[Bin(1) := Bin(1)], Bin(1), r);
    HeaderMoves(v.bk[Bin(1) := Bin(1)], Bin(1), r);
  }

  lemma TopHere(v: View, top: int)
    requires TopOK(v, top)
    ensures OnTop(v.ch, top) && (v.base >= v.end ==> forall p :: OnTop(v.ch, p))
  {
  }

  lemma TopThere(v: View, top: int)
    requires TopOK(v, top) && v.base < v.end
    ensures top in v.ch && v.ch[top].st.Top?
  {
  }

  lemma FastView(v: View, i: int, nb: int, req: nat) returns (w: View)
    requires Core(v) && Settled(v.ch) && 0 <= i < |v.fast| && v.fast[i] != [] && i == FastIndex(nb) && Granule(nb)
    ensures |v.fast| == |v.heads| && v.heads[i] in v.ch && v.ch[v.heads[i]] == Chunk(nb, Fast)
            && v.heads[i] == v.fast[i][0]
    ensures w.ch == v.ch[v.heads[i] := Chunk(nb, Live(req))]
    ensures w == v.(ch := w.ch, fast := v.fast[i := v.fast[i][1..]], heads := v.heads[i := Rd(v.fd, v.heads[i])])
    ensures Core(w) && Settled(w.ch) && Taken(v.ch, w.ch, v.heads[i], nb, req)
    ensures forall t :: TopOK(v, t) ==> TopOK(w, t)
  {
    hide Core;
    CoreShape(v);
    FastPoppedCore(v, i, Live(req));
    HeaderFacts(v, v.heads[i]);
    w := FastPopped(v, i, Live(req));
    assert v.heads[i] !in LiveMap(v.ch);
  }

  lemma AfterFast(v: View, w: View, m: int, p: int, size: int, req: nat)
    requires FlagsOK(m, v.bins, v.fast) && BlocksOK(LiveMap(v.ch)) && w.bins == v.bins && |w.fast| == |v.fast|
    requires forall i :: 0 <= i < |v.fast| && w.fast[i] != [] ==> v.fast[i] != []
    requires Taken(v.ch, w.ch, p, size, req) && size == Request2Size(req)
    ensures FlagsOK(m, w.bins, w.fast) && BlocksOK(LiveMap(w.ch))
  {
    hide Request2Size, HaveAny, HaveFast;
  }

  lemma AfterTop(v: View, w: View, p: int, size: int, req: nat)
    requires BlocksOK(LiveMap(v.ch)) && Taken(v.ch, w.ch, p, size, req) && size == Request2Size(req)
    ensures BlocksOK(LiveMap(w.ch))
  {
    hide Request2Size;
  }

  lemma TopView(v: View, top: int, nb: int, req: nat) returns (w: View)
    requires Core(v) && Settled(v.ch) && v.base < v.end && TopOK(v, top) && nb >= MINSIZE && Granule(nb)
    requires v.ch[top].size >= nb + MINSIZE
    ensures w.ch == v.ch[top := Chunk(nb, Live(req))][top + nb := Chunk(v.ch[top].size - nb, Top)] && top + nb !in v.ch
    ensures w == v.(ch := w.ch, sz := CutHeads(v.sz, top, nb, v.ch[top].size - nb))
    ensures Core(w) && Settled(w.ch) && Taken(v.ch, w.ch, top, nb, req) && TopOK(w, top + nb)
  {
    hide Core, Granule, Word, ChunkSize, PrevInuse;
    HeaderFacts(v, top);
    NotLiveBare(v, top);
    CarvedCore(v, top, nb, Live(req), Top);
    w := Carved(v, top, nb, Live(req), Top);
    assert top !in LiveMap(v.ch);
  }

  lemma BinIndexUsable(size: int)
    requires LegalSize(size) && size < WORD32
    ensures 4 <= BinIndex(size) < NBINS
  {
    hide LargeBinIndex;
    BinIndexMonotone(32, size);
  }

  /** The last chunk of the queue is unlinked. */
  lemma OffQueue(v: View, last: int) returns (u: View)
    requires Core(v) && |v.bins| == NBINS && v.bins[1] != [] && last == |v.bins[1]| - 1
    requires v.base < v.end ==> v.end - v.base < WORD32
    ensures InBin(v, 1, last) && u == Unlinked(v, 1, last) && Core(u)
    ensures var c := v.bins[1][last];
            && c in u.ch && u.ch[c] == Chunk(v.ch[c].size, Loose) && LegalSize(v.ch[c].size) && v.ch[c].size < WORD32
            && 4 <= BinIndex(v.ch[c].size) < NBINS && u.end - u.base < WORD32 && |u.bins| == NBINS
    ensures u == v.(ch := u.ch, bins := u.bins, fd := u.fd, bk := u.bk)
  {
    hide Core, BinIndex;
    BinElement(v, 1, last);
    UnlinkedCore(v, 1, last);
    u := Unlinked(v, 1, last);
    BinIndexUsable(v.ch[v.bins[1][last]].size);
  }

  /** The chunk c, taken off the queue of v, enters bin i. */
  lemma OnShelf(v: View, u: View, i: int, k: int, c: int) returns (w: View)
    requires Core(v) && Settled(v.ch) && InBin(v, 1, |v.bins[1]| - 1) && c == v.bins[1][|v.bins[1]| - 1]
    requires u == Unlinked(v, 1, |v.bins[1]| - 1) && Core(u) && |u.bins| == NBINS
    requires 2 <= i < NBINS && 0 <= k <= |u.bins[i]| && Fits(u.ch, u.bins[i], i, k, v.ch[c].size)
    ensures c in u.ch && w == Inserted(u, i, k, c) && Core(w) && Settled(w.ch) && Rebinned(v.ch, w.ch)
            && LiveMap(w.ch) == LiveMap(v.ch)
    ensures w == v.(ch := w.ch, bins := w.bins, fd := w.fd, bk := w.bk)
    ensures w.ch == Mark(v.ch, c, Binned(i))
    ensures w.bins == v.bins[1 := v.bins[1][..|v.bins[1]| - 1]][i := InsertAt(v.bins[i], k, c)]
    ensures u.bins[i] == v.bins[i] && Place(u.ch, u.bins[i], v.ch[c].size) == Place(v.ch, v.bins[i], v.ch[c].size)
    ensures forall t :: TopOK(v, t) ==> TopOK(w, t)
  {
    hide Core, BinIndex, Fits;
    var last := |v.bins[1]| - 1;
    UnlinkedCore(v, 1, last);
    InsertedCore(u, i, k, c);
    w := Inserted(u, i, k, c);
    LargerSame(v.ch, u.ch, v.bins[i], v.ch[c].size);
    hide Place;
    assert Without(v.bins[1], last) == v.bins[1][..last];
  }

  /** Bin i has got a chunk and its mark. */
  lemma MarkPlaced(map0: seq<Word32>, m: int, v: View, w: View, i: int)
    requires MapOK(map0, v.bins) && FlagsOK(m, v.bins, v.fast) && 2 <= i < NBINS && v.bins[1] != []
    requires |w.bins| == NBINS && w.fast == v.fast && forall j :: 2 <= j < NBINS && j != i ==> w.bins[j] == v.bins[j]
    ensures |map0| == 4 && MapOK(MarkBin(map0, i), w.bins) && FlagsOK(m, w.bins, w.fast)
  {
    hide Marked, MarkBin, HaveAny, HaveFast;
    var map1 := MarkBin(map0, i);
    MarkOne(map0, i, i);
    forall j {:trigger Noted(map1, w.bins, j)} | 2 <= j < |w.bins| ensures Noted(map1, w.bins, j) {
      MarkOne(map0, i, j);
      assert Noted(map0, v.bins, j);
    }
  }

  lemma CoversRebinned(ch0: Chunks, ch1: Chunks)
    requires Rebinned(ch0, ch1)
    ensures Covers(ch0, ch1)
  {
    CoversSame(ch0, ch1);
  }

  lemma RebinnedRefl(ch: Chunks)
    ensures Rebinned(ch, ch)
  {
  }

  lemma RebinnedTrans(a: Chunks, b: Chunks, c: Chunks)
    requires Rebinned(a, b) && Rebinned(b, c)
    ensures Rebinned(a, c)
  {
    assert a.Keys == c.Keys;
    forall x {:trigger c[x]} {:trigger a[x]} | x in a
      ensures c[x].size == a[x].size && (c[x].st == a[x].st || (c[x].st.Binned? && a[x].st.Binned?))
    {
      assert b[x].size == a[x].size;
    }
  }

  lemma NormalSize(nb: int)
    requires LegalSize(nb)
    ensures nb >= MINSIZE && Granule(nb)
  {
  }

  lemma SizesApart(nb: int, size: int)
    requires LegalSize(nb) && size >= MINSIZE && Granule(size) && nb != size && nb < WORD32 && size < WORD32
    ensures nb < MIN_LARGE_SIZE ==> BinIndex(size) != BinIndex(nb)
  {
    hide LargeBinIndex;
    BinIndexRange(nb);
    BinsOrderSizes(nb, size);
  }

  lemma AloneInQueue(v: View, last: int)
    requires Core(v) && |v.bins| == NBINS && v.bins[1] != [] && last == |v.bins[1]| - 1
    requires Rd(v.bk, v.bins[1][last]) == Bin(1)
    ensures v.bins[1] == [v.bins[1][last]]
  {
    hide BinIndex;
    BinElement(v, 1, last);
    if last > 0 { BinElement(v, 1, last - 1); }
  }

  /** With its small bin empty and only a larger chunk in the queue, a small request has no exact fit. */
  lemma RemainderServes(v: View, nb: int)
    requires Core(v) && Settled(v.ch) && |v.bins| == NBINS && |v.bins[1]| == 1 && v.bins[1][0] in v.ch
             && v.ch[v.bins[1][0]].size > nb
    requires nb >= 0 && 2 <= BinIndex(nb) < NBINS && v.bins[BinIndex(nb)] == []
    ensures NoExactFit(v.ch, nb)
  {
    hide BinIndex;
    forall d | d in v.ch && Idle(v.ch[d]) ensures v.ch[d].size != nb {
      assert Filed(v.ch, v.bins, d);
      var i := v.ch[d].st.bin;
      if i >= 2 { assert SortedBin(v.ch, v.bins, i); }
    }
  }

  lemma ServedRemainder(ch0: Chunks, pool: Chunks, ch': Chunks, p: int, nb: int, req: nat)
    requires Rebinned(ch0, pool) && LiveMap(pool) == LiveMap(ch0) && Taken(pool, ch', p, nb, req)
    requires FromRest(pool, nb, p) && pool[p].st.Binned?
    ensures Served(ch0, ch', p, nb, req, FromRemainder) && FromRest(ch0, nb, p)
  {
    assert p in ch0;
    forall d | d in ch0 && Idle(ch0[d]) && pool[d].st.Binned? ensures ch0[d].size != nb {
      assert d in pool && Idle(pool[d]);
    }
  }

  /** c is the chunk that went to the fastbin of nb bytes last. */
  ghost predicate Newest(v: View, nb: int, c: int) {
    var i := FastIndex(nb);
    0 <= i < |v.fast| == |v.heads| && v.fast[i] != [] && v.fast[i][0] == c == v.heads[i]
  }

  lemma NewestAt(v: View, nb: int, c: int)
    requires var i := FastIndex(nb);
               0 <= i < |v.fast| == |v.heads| && v.fast[i] != [] && c == v.heads[i] == v.fast[i][0]
    ensures Newest(v, nb, c)
  {
  }

  lemma FastFits(ch: Chunks, c: int, nb: int)
    requires c in ch && ch[c] == Chunk(nb, Fast)
    ensures !NoFastFit(ch, nb)
  {
  }

  lemma ExactThere(ch: Chunks, c: int, nb: int)
    requires c in ch && ch[c].st.Binned? && ch[c].size == nb
    ensures !NoExactFit(ch, nb)
  {
    assert Idle(ch[c]);
  }

  lemma DueSame(v: View, w: View, lr: int, nb: int)
    requires w.ch == v.ch && w.bins == v.bins
    ensures RemainderDue(w, lr, nb) == RemainderDue(v, lr, nb)
  {
  }

  lemma EmptyQueue(v: View, lr: int, nb: int)
    ensures |v.bins| > 1 && v.bins[1] == [] ==> !RemainderDue(v, lr, nb)
  {
  }

  lemma RemainderNotDue(v0: View, lr: int, nb: int)
    requires !NoExactFit(v0.ch, nb)
    ensures !RemainderDue(v0, lr, nb)
  {
  }

  lemma RemainderPassed(v0: View, pool: Chunks, queue: List, c: int, lr: int, nb: int)
    requires |v0.bins| > 1 && queue <= v0.bins[1] && queue == [c] && Rebinned(v0.ch, pool) && c in pool
    requires !(nb < MIN_LARGE_SIZE && c == lr && pool[c].size > nb + MINSIZE)
    ensures !RemainderDue(v0, lr, nb)
  {
    hide NoExactFit, Idle;
    assert queue[0] == v0.bins[1][0];
    assert c in v0.ch;
  }

  lemma ServedExact(ch0: Chunks, pool: Chunks, ch': Chunks, p: int, nb: int, req: nat)
    requires Rebinned(ch0, pool) && LiveMap(pool) == LiveMap(ch0) && Taken(pool, ch', p, nb, req)
    requires p in pool && pool[p].st.Binned? && pool[p].size == nb
    ensures Served(ch0, ch', p, nb, req, FromBin) && !NoExactFit(ch0, nb)
  {
    assert p in ch0;
  }

  lemma TakenHere(pool: Chunks, ch': Chunks, p: int, size: int, req: nat)
    requires Taken(pool, ch', p, size, req)
    ensures p in ch' && ch'[p].size == size
  {
  }

  /** From element `from` on, no chunk of the list has room for nb bytes. */
  ghost predicate Unfit(ch: Chunks, s: List, nb: int, from: int) {
    forall m :: 0 <= m && from <= m < |s| && s[m] in ch ==> ch[s[m]].size < nb
  }

  /** p is the last chunk of the list that has room for nb bytes. */
  ghost predicate LastFit(ch: Chunks, s: List, p: int, nb: int) {
    exists k :: 0 <= k < |s| && s[k] == p && Unfit(ch, s, nb, k + 1)
  }

  lemma LastFitAt(ch: Chunks, s: List, nb: int, k: int)
    requires 0 <= k < |s| && Unfit(ch, s, nb, k + 1)
    ensures LastFit(ch, s, s[k], nb)
  {
  }

  ghost predicate UnfitBelow(ch: Chunks, bins: seq<List>, nb: int, i: int) {
    forall j {:trigger bins[j]} :: 2 <= j < i && j < |bins| ==> Unfit(ch, bins[j], nb, 0)
  }

  lemma LowerBinsUnfit(v: View, nb: int, i: int)
    requires Core(v) && |v.bins| == NBINS && LegalSize(nb) && nb < WORD32 && i == BinIndex(nb)
             && v.end - v.base < WORD32
    ensures UnfitBelow(v.ch, v.bins, nb, i)
  {
    hide BinIndex, Core, Granule, LegalSize;
    NormalSize(nb);
    forall j {:trigger v.bins[j]} | 2 <= j < i && j < |v.bins| ensures Unfit(v.ch, v.bins[j], nb, 0) {
      forall m | 0 <= m < |v.bins[j]| && v.bins[j][m] in v.ch ensures v.ch[v.bins[j][m]].size < nb {
        BinElement(v, j, m);
        BinsOrderSizes(v.ch[v.bins[j][m]].size, nb);
      }
    }
  }

  /** A fitting chunk with only unfit chunks behind it in its bin and in the lower bins is a best fit. */
  lemma BestFitAt(v: View, nb: int, i: int, k: int)
    requires Core(v) && Settled(v.ch) && |v.bins| == NBINS && v.bins[1] == [] && v.end - v.base < WORD32
    requires 2 <= i < NBINS && InBin(v, i, k) && v.ch[v.bins[i][k]].size >= nb
    requires UnfitBelow(v.ch, v.bins, nb, i) && Unfit(v.ch, v.bins[i], nb, k + 1)
    ensures BestFit(v.ch, nb, v.bins[i][k])
  {
    hide BinIndex, Granule, Core;
    var c := v.bins[i][k];
    BinElement(v, i, k);
    forall d | d in v.ch && Idle(v.ch[d]) && v.ch[d].size >= nb ensures v.ch[c].size <= v.ch[d].size {
      var m := Locate(v, d);
      var j := v.ch[d].st.bin;
      BinElement(v, j, m);
      if j == i {
        BinSorted(v, i, m, k);
      } else {
        BinsOrderSizes(v.ch[c].size, v.ch[d].size);
      }
    }
  }

  lemma BinSorted(v: View, i: int, m: int, k: int)
    requires Core(v) && |v.bins| == NBINS && 2 <= i < NBINS && InBin(v, i, k) && InBin(v, i, m) && m <= k
    ensures v.ch[v.bins[i][m]].size >= v.ch[v.bins[i][k]].size
  {
    hide BinIndex;
    assert SortedBin(v.ch, v.bins, i);
  }

  /** No free chunk has room for nb bytes. */
  ghost predicate NoFit(pool: Chunks, nb: int) {
    forall d :: d in pool && Idle(pool[d]) ==> pool[d].size < nb
  }

  lemma SearchReady(v: View)
    requires Core(v)
    ensures Rings(v.fd, v.bk, v.bins) && |v.bins| == NBINS
    ensures forall i :: 1 <= i < NBINS ==> Bin(i) !in v.bins[i]
  {
    forall i | 1 <= i < NBINS ensures Bin(i) !in v.bins[i] {
      assert BinHolds(v.ch, v.bins, i);
      assert Bin(i) < 0;
    }
  }

  lemma HigherUnfit(v: View, nb: int, i: int, b: int)
    requires |v.bins| == NBINS && 2 <= i < NBINS && i < b && UnfitBelow(v.ch, v.bins, nb, i)
             && Unfit(v.ch, v.bins[i], nb, 0)
    requires EmptyBetween(v.bins, i + 1, b)
    ensures UnfitBelow(v.ch, v.bins, nb, b)
  {
  }

  lemma NothingFits(v: View, nb: int)
    requires Core(v) && Settled(v.ch) && |v.bins| == NBINS && v.bins[1] == [] && UnfitBelow(v.ch, v.bins, nb, NBINS)
    ensures NoFit(v.ch, nb)
  {
    hide Core, BinIndex;
    forall d | d in v.ch && Idle(v.ch[d]) ensures v.ch[d].size < nb {
      var m := Locate(v, d);
      assert v.bins[v.ch[d].st.bin] != [];
    }
  }

  lemma ServedRebinned(ch0: Chunks, pool: Chunks, ch': Chunks, p: int, nb: int, req: nat)
    requires Rebinned(ch0, pool) && LiveMap(pool) == LiveMap(ch0) && Served(pool, ch', p, nb, req, FromBin)
    ensures Served(ch0, ch', p, nb, req, FromBin)
  {
    assert p in ch0 && Idle(ch0[p]);
    forall d | d in ch0 && Idle(ch0[d]) && ch0[d].size >= nb ensures ch0[p].size <= ch0[d].size {
      assert d in pool && Idle(pool[d]);
    }
  }

  lemma NoFitRebinned(ch0: Chunks, pool: Chunks, nb: int)
    requires Rebinned(ch0, pool) && NoFit(pool, nb)
    ensures NoFit(ch0, nb)
  {
    forall d | d in ch0 && Idle(ch0[d]) ensures ch0[d].size < nb {
      assert d in pool && Idle(pool[d]);
    }
  }

  lemma EmptyMap()
    ensures MapOK([0, 0, 0, 0], seq(NBINS, i => []))
  {
    hide Marked;
    var m: seq<Word32> := [0, 0, 0, 0];
    var bins: seq<List> := seq(NBINS, i => []);
    forall i {:trigger Noted(m, bins, i)} | 2 <= i < |bins| ensures Noted(m, bins, i) {
      assert bins[i] == [];
    }
  }

  lemma EmptyCore(v: View)
    requires v.ch == map[] && v.base == v.end && v.bins == seq(NBINS, i => []) && v.fast == seq(NFASTBINS, i => [])
    requires v.heads == seq(NFASTBINS, i => 0) && Rings(v.fd, v.bk, v.bins) && v.stored == map[]
    ensures Core(v)
  {
    assert forall i :: 0 <= i < |v.bins| ==> v.bins[i] == [];
    assert forall i :: 0 <= i < |v.fast| ==> v.fast[i] == [] && v.heads[i] == 0;
    forall i {:trigger ChainAt(v.fd, v.heads, v.fast, i)} | 0 <= i < |v.fast|
        ensures ChainAt(v.fd, v.heads, v.fast, i) {
      assert v.fast[i] == [];
    }
  }

  lemma RoundUpFacts(x: int, page: int)
    requires page > 0 && Granule(page)
    ensures x <= RoundUp(x, page) < x + page && Granule(RoundUp(x, page))
  {
    var q := (x + page - 1) / page;
    assert q * page <= x + page - 1 < q * page + page;
    assert page == 16 * (page / 16);
    assert q * page == 16 * (q * (page / 16));
  }

  lemma WordSum(a: int, b: int)
    requires Word(a) && Granule(b)
    ensures Word(a + b)
  {
    GranuleSum(a, b);
  }

  /** Skipping the misaligned front bytes. */
  lemma AlignUp(r: int)
    requires Word(r)
    ensures var misalign := (r + 16) % 16; (misalign == 0 || misalign == 8)
    ensures var misalign := (r + 16) % 16; Granule(if misalign > 0 then r + (16 - misalign) else r)
  {
    var q := r / 16;
    assert r == 16 * q || r == 16 * q + 8;
  }

  lemma FirstTopCore(v: View, t: int, size: int)
    requires v.ch == map[] && Core(v) && Granule(t) && t > 0 && size >= MINSIZE && Word(size)
    ensures Core(v.(ch := map[t := Chunk(size, Top)], base := t, end := t + size, sz := v.sz[t := size + 1]))
    ensures LiveMap(map[t := Chunk(size, Top)]) == LiveMap(v.ch)
  {
    Layout.FirstTop(v.sz, v.psz, t, size);
    assert v.stored == map[] by {
      forall a ensures a !in v.stored { assert a in v.stored ==> StoredAt(v, a); }
    }
    hide Sound;
    ListsFrame(v, map[t := Chunk(size, Top)]);
  }

  lemma ShrunkTop(v: View, t: int, size: int)
    requires Core(v) && TopOK(v, t) && v.base < v.end && size >= MINSIZE && Word(size)
    ensures var w := TopResized(v, t, size);
            Core(w) && TopOK(w, t) && LiveMap(w.ch) == LiveMap(v.ch) && w.base < w.end
              && (Settled(v.ch) ==> Settled(w.ch))
  {
    hide Core, Word, Granule, ChunkSize, PrevInuse;
    HeaderFacts(v, t);
    TopResizedCore(v, t, size);
  }

  /** The heap whose first chunk is a top of `size` bytes. */
  function WithTop(v: View, t: int, size: int): View {
    v.(ch := map[t := Chunk(size, Top)], base := t, end := t + size, sz := v.sz[t := size + 1])
  }

  lemma FreshTop(v: View, t: int, size: int)
    requires v.ch == map[] && Core(v) && Granule(t) && t > 0 && size >= MINSIZE && Word(size)
    ensures var w := WithTop(v, t, size);
            Core(w) && TopOK(w, t) && Settled(w.ch) && LiveMap(w.ch) == LiveMap(v.ch) && w.base < w.end
  {
    hide Core, Word, Granule;
    FirstTopCore(v, t, size);
  }

  lemma TopResizedIs(v: View, t: int, size: int)
    ensures TopResized(v, t, size) == v.(ch := v.ch[t := Chunk(size, Top)], end := t + size, sz := v.sz[t := size + 1])
  {
  }

  lemma WithTopIs(v: View, t: int, size: int)
    ensures WithTop(v, t, size) ==
            v.(ch := map[t := Chunk(size, Top)], base := t, end := t + size, sz := v.sz[t := size + 1])
  {
  }

  /** There is no top, or it is too small to be cut. */
  ghost predicate TopSmall(v: View, top: int, nb: int) {
    v.base < v.end ==> top in v.ch && v.ch[top].size < nb + MINSIZE
  }

  lemma TopSmallMore(v: View, top: int, nb: int, more: int)
    requires nb <= more
    ensures TopSmall(v, top, nb) ==> TopSmall(v, top, more)
  {
  }

  lemma TopOrNone(v: View, top: int)
    requires TopOK(v, top)
    ensures if v.base < v.end then top in v.ch else v.ch == map[]
  {
  }

  /** A block is recorded with another request of the same padded size. */
  lemma Relabelled(v: View, top: int, p: int, nb: int, asked: nat, req: nat, ch0: Chunks, ch1: Chunks, pool: Chunks,
      how: Origin)
    requires Core(v) && TopOK(v, top) && Settled(v.ch) && BlocksOK(LiveMap(v.ch))
    requires Chosen(ch1, pool, v.ch, p, nb, asked, how) && LiveMap(ch1) == LiveMap(ch0)
    requires Request2Size(asked) == Request2Size(req) && how != FromFast && NoFastFit(ch0, nb)
    ensures p in v.ch && v.ch[p].st == Live(asked)
    ensures var w := v.(ch := Mark(v.ch, p, Live(req)));
            Core(w) && TopOK(w, top) && Settled(w.ch) && BlocksOK(LiveMap(w.ch))
              && Chosen(ch0, pool, w.ch, p, nb, req, how)
  {
    hide Core, Granule, Word, Request2Size, BestFit, NoFit, NoExactFit;
    MarkedCore(v, p, Live(req));
    var ch' := Mark(v.ch, p, Live(req));
    assert LiveMap(ch') == LiveMap(ch0)[p := ch'[p]];
    BlocksLabel(LiveMap(v.ch), LiveMap(ch'), p, asked, req);
  }

  lemma BlocksLabel(live: Chunks, live': Chunks, p: int, asked: nat, req: nat)
    requires BlocksOK(live) && p in live && live[p].st == Live(asked) && Request2Size(asked) == Request2Size(req)
    requires live' == live[p := Chunk(live[p].size, Live(req))]
    ensures BlocksOK(live')
  {
    hide Request2Size;
  }

  lemma InRange(req: int)
    requires 0 <= req < WORD32
    ensures !OutOfRange(req)
  {
  }

  lemma NoFastChunks(v: View, m: int)
    requires Core(v) && FlagsOK(m, v.bins, v.fast) && !HaveFast(m)
    ensures NoFast(v.ch)
  {
    hide FastIndex, HaveFast, HaveAny;
    forall c | c in v.ch ensures !v.ch[c].st.Fast? {
      assert FastFiled(v.ch, v.fast, c);
    }
  }

  lemma NothingFree(v: View, m: int, nb: int)
    requires Core(v) && Settled(v.ch) && FlagsOK(m, v.bins, v.fast) && !HaveAny(m)
    ensures NoFit(v.ch, nb) && NoFast(v.ch) && NoFastFit(v.ch, nb) && forall lr :: !RemainderDue(v, lr, nb)
  {
    hide FastIndex, HaveFast, HaveAny, BinIndex;
    NoFastChunks(v, m);
    forall d | d in v.ch ensures !Idle(v.ch[d]) {
      assert Filed(v.ch, v.bins, d);
    }
  }

  lemma NoFlags(m: int, bins: seq<List>, fast: seq<List>)
    requires FlagsOK(m, bins, fast) && !HaveAny(m)
    ensures !HaveFast(m) && (|bins| == NBINS ==> bins[1] == []) && forall i :: 0 <= i < |fast| ==> fast[i] == []
  {
  }

  lemma InitialisedNow(m: int)
    requires HaveAny(m)
    ensures m != 0
  {
  }

  lemma FastRange(nb: int)
    requires nb >= MINSIZE && Granule(nb) && nb <= MAX_FAST + 3
    ensures 0 <= FastIndex(nb) < NFASTBINS && FastIndex(nb) == nb / 8 - 2 && nb <= 80
  {
  }

  lemma SmallIndex(nb: int)
    requires nb >= 0
    ensures nb < MIN_LARGE_SIZE ==> BinIndex(nb) == nb / 8
  {
  }

  lemma SmallBinSize(nb: int, size: int)
    requires LegalSize(nb) && nb < MIN_LARGE_SIZE && size >= MINSIZE && Granule(size) && size < WORD32
             && BinIndex(size) == BinIndex(nb)
    ensures size == nb
  {
    hide LargeBinIndex;
    BinIndexRange(nb);
    BinsOrderSizes(nb, size);
  }

  /** The heap itself is what a request is chosen from, unless consolidation could help. */
  lemma PoolItself(v: View, nb: int)
    requires Core(v) && Settled(v.ch) && ((nb < MIN_LARGE_SIZE && Available(v.ch, nb)) || NoFast(v.ch))
    ensures PoolOf(v.ch, v.base, v.end, v.ch, nb)
  {
    hide Available, NoFast, Granule, Word;
    RebinnedRefl(v.ch);
    CoversRefl(v.ch);
  }

  /** A large request is chosen from the consolidated heap. */
  lemma PoolClean(ch0: Chunks, v: View, nb: int)
    requires Core(v) && Settled(v.ch) && LiveMap(v.ch) == LiveMap(ch0) && NoFast(v.ch) && Covers(ch0, v.ch)
             && nb >= MIN_LARGE_SIZE
    ensures PoolOf(ch0, v.base, v.end, v.ch, nb) && NoFastFit(v.ch, nb)
  {
  }

  /** So is a request that the heap could not serve. */
  lemma PoolAfterConsolidate(ch0: Chunks, ch1: Chunks, base: int, end: int, pool: Chunks, nb: int)
    requires LiveMap(ch1) == LiveMap(ch0) && NoFast(ch1) && Covers(ch0, ch1) && PoolOf(ch1, base, end, pool, nb)
             && !Available(ch0, nb)
    ensures PoolOf(ch0, base, end, pool, nb) && NoFast(pool)
  {
    hide Covers, WellFormed, Available;
    CoversTrans(ch0, ch1, pool);
    if Rebinned(ch1, pool) {
      forall c | c in pool ensures !pool[c].st.Fast? { assert c in ch1; }
    }
  }

  /** What happened before the heap turned out not to serve the request. */
  lemma PoolTrans(ch0: Chunks, pool1: Chunks, ch1: Chunks, base: int, end: int, pool: Chunks, nb: int)
    requires Covers(ch0, pool1) && Rebinned(pool1, ch1) && LiveMap(ch1) == LiveMap(ch0)
             && PoolOf(ch1, base, end, pool, nb) && NoFast(pool)
    requires nb >= MIN_LARGE_SIZE || (pool1 == ch0 && !Available(ch1, nb))
    ensures PoolOf(ch0, base, end, pool, nb)
  {
    hide Covers, WellFormed, Available, Rebinned;
    CoversRebinned(pool1, ch1);
    CoversTrans(ch0, pool1, ch1);
    CoversTrans(ch0, ch1, pool);
    if pool1 == ch0 { AvailableRebinned(ch0, ch1, nb); }
  }

  lemma AvailableRebinned(ch0: Chunks, ch1: Chunks, nb: int)
    requires Rebinned(ch0, ch1)
    ensures Available(ch0, nb) ==> Available(ch1, nb)
    ensures NoFastFit(ch0, nb) <==> NoFastFit(ch1, nb)
  {
    hide Idle;
    NoFitBinned(ch0, ch1, nb);
    hide NoFit;
    assert forall c :: c in ch0 <==> c in ch1;
    if c :| c in ch0 && ch0[c].st.Top? && ch0[c].size >= nb + MINSIZE {
      assert c in ch1 && ch1[c].st.Top?;
    }
  }

  /** Nothing in the fastbins, in the bins or at the top. */
  lemma Unavailable(v: View, top: int, nb: int)
    requires Core(v) && TopOK(v, top) && TopSmall(v, top, nb) && NoFit(v.ch, nb) && NoFastFit(v.ch, nb)
    ensures !Available(v.ch, nb)
  {
    hide Core, NoFit, NoFastFit;
    if c :| c in v.ch && v.ch[c].st.Top? && v.ch[c].size >= nb + MINSIZE {
      TopUnique(v, top, c);
      assert false;
    }
  }

  lemma TopServes(ch: Chunks, top: int, nb: int)
    requires top in ch && ch[top].st.Top? && ch[top].size >= nb + MINSIZE
    ensures Available(ch, nb)
  {
  }

  /** Top does not move between bins. */
  lemma TopRebinned(ch: Chunks, ch1: Chunks, top: int)
    requires Rebinned(ch, ch1) && top in ch1 && ch1[top].st.Top?
    ensures OnTop(ch, top) && top in ch && ch[top] == ch1[top]
  {
    assert top in ch;
  }

  lemma BinServes(ch: Chunks, ch': Chunks, p: int, nb: int, req: nat, how: Origin)
    requires Served(ch, ch', p, nb, req, how)
    ensures Available(ch, nb)
  {
    assert p in ch && Idle(ch[p]);
  }

  lemma FastServes(ch: Chunks, p: int, nb: int)
    requires p in ch && ch[p] == Chunk(nb, Fast)
    ensures Available(ch, nb)
  {
  }

  /** The fastbin of nb is empty, or nb is too large for fastbins. */
  lemma NoneFast(v: View, m: int, nb: int)
    requires Core(v) && FlagsOK(m, v.bins, v.fast) && nb >= MINSIZE && Granule(nb)
    requires nb <= m ==> 0 <= FastIndex(nb) < |v.fast| && v.fast[FastIndex(nb)] == []
    ensures NoFastFit(v.ch, nb)
  {
    forall c | c in v.ch ensures v.ch[c] != Chunk(nb, Fast) {
      assert FastFiled(v.ch, v.fast, c);
    }
  }

  // ------------------------------------------------------------ the pool is determined

  /** Two heaps without fastbin chunks and with the same blocks agree on a chunk both have. */
  lemma SameChunk(a: Chunks, b: Chunks, base: int, end: int, c: int)
    requires WellFormed(a, base, end) && WellFormed(b, base, end) && NoFast(a) && NoFast(b) && LiveMap(a) == LiveMap(b)
    requires c in a && c in b
    ensures a[c].size == b[c].size && (a[c].st == b[c].st || (a[c].st.Binned? && b[c].st.Binned?))
  {
    hide Granule, Word, LiveMap;
    LiveBoth(a, b, c);
    assert Placed(a, base, end, c) && Placed(b, base, end, c);
    if a[c].st.Binned? { GapSame(a, b, base, end, c); }
    if b[c].st.Binned? { GapSame(b, a, base, end, c); }
  }

  lemma LiveBoth(a: Chunks, b: Chunks, c: int)
    requires LiveMap(a) == LiveMap(b) && c in a
    ensures a[c].st.Live? <==> c in LiveMap(a)
    ensures a[c].st.Live? ==> c in b && b[c] == a[c]
    ensures c in b && b[c].st.Live? ==> a[c] == b[c]
  {
    assert c in LiveMap(a) ==> LiveMap(a)[c] == LiveMap(b)[c];
  }

  /** A free chunk reaches to the next block, in both heaps. */
  lemma GapSame(a: Chunks, b: Chunks, base: int, end: int, c: int)
    requires WellFormed(a, base, end) && WellFormed(b, base, end) && NoFast(a) && NoFast(b) && LiveMap(a) == LiveMap(b)
    requires c in a && c in b && a[c].st.Binned?
    ensures b[c].st.Binned? && b[c].size == a[c].size
  {
    hide Granule, Word, LiveMap;
    var n := Next(a, c);
    LiveBoth(a, b, c);
    assert Placed(a, base, end, c) && Bordered(a, c);
    LiveBoth(a, b, n);
    assert Placed(a, base, end, n) && Apart(b, c, n) && Placed(b, base, end, c);
    assert b[c].st.Binned?;
    var m := Next(b, c);
    assert Bordered(b, c) && Placed(b, base, end, m);
    LiveBoth(b, a, m);
    assert Apart(a, c, m);
  }

  /** From a chunk that both have up to the end, the two heaps have the same chunks. */
  lemma {:induction false} SameChunks(a: Chunks, b: Chunks, base: int, end: int, c: int)
    requires WellFormed(a, base, end) && WellFormed(b, base, end) && NoFast(a) && NoFast(b) && LiveMap(a) == LiveMap(b)
    requires c in a && c in b
    ensures forall d :: d >= c && d in a ==> d in b
    decreases end - c
  {
    hide Granule, Word, LiveMap, NoFast;
    SameChunk(a, b, base, end, c);
    assert Placed(a, base, end, c) && Placed(b, base, end, c);
    if !a[c].st.Top? { SameChunks(a, b, base, end, Next(a, c)); }
    forall d | d >= c && d in a ensures d in b {
      assert Apart(a, c, d) && Placed(a, base, end, d);
    }
  }

  /** A request can be chosen from one set of chunks only, apart from the numbers of their bins. */
  lemma PoolUnique(ch0: Chunks, base: int, end: int, a: Chunks, b: Chunks, nb: int)
    requires PoolOf(ch0, base, end, a, nb) && PoolOf(ch0, base, end, b, nb)
    ensures Rebinned(a, b)
  {
    if nb < MIN_LARGE_SIZE && Available(ch0, nb) {
      hide WellFormed, Covers, Available;
    } else {
      hide Granule, Word, LiveMap, NoFast, Covers, Available;
      if base < end {
        SameChunks(a, b, base, end, base);
        SameChunks(b, a, base, end, base);
      }
      forall c | c in a || c in b ensures c in a && c in b {
        assert c in a ==> Placed(a, base, end, c);
        assert c in b ==> Placed(b, base, end, c);
      }
      forall c | c in a ensures b[c].size == a[c].size && (b[c].st == a[c].st || (b[c].st.Binned? && a[c].st.Binned?)) {
        SameChunk(a, b, base, end, c);
      }
    }
  }

  lemma NotFromFast(ch1: Chunks, pool: Chunks, ch': Chunks, p: int, nb: int, req: nat, how: Origin)
    requires Chosen(ch1, pool, ch', p, nb, req, how) && NoFast(ch1)
    ensures how != FromFast
  {
  }

  lemma ChosenFast(ch0: Chunks, ch': Chunks, p: int, nb: int, req: nat)
    requires Taken(ch0, ch', p, nb, req) && p in ch0 && ch0[p] == Chunk(nb, Fast)
    ensures Chosen(ch0, ch0, ch', p, nb, req, FromFast)
  {
  }

  lemma ChosenSmall(ch0: Chunks, ch': Chunks, p: int, nb: int, req: nat)
    requires Taken(ch0, ch', p, nb, req) && p in ch0 && ch0[p].st.Binned? && ch0[p].size == nb && NoFastFit(ch0, nb)
    ensures Chosen(ch0, ch0, ch', p, nb, req, FromBin) && Served(ch0, ch', p, nb, req, FromBin)
  {
  }

  lemma ChosenServed(ch0: Chunks, pool: Chunks, ch': Chunks, p: int, nb: int, req: nat, how: Origin)
    requires LiveMap(pool) == LiveMap(ch0) && Served(pool, ch', p, nb, req, how) && NoFastFit(ch0, nb)
    ensures Chosen(ch0, pool, ch', p, nb, req, how)
  {
  }

  lemma ChosenTop(ch0: Chunks, ch1: Chunks, pool: Chunks, ch': Chunks, p: int, nb: int, req: nat)
    requires LiveMap(ch1) == LiveMap(ch0) && Taken(ch1, ch', p, nb, req) && NoFit(pool, nb) && OnTop(pool, p)
             && NoFastFit(ch0, nb)
    ensures Chosen(ch0, pool, ch', p, nb, req, FromTop)
  {
  }

  lemma ChosenTrans(ch0: Chunks, ch1: Chunks, pool: Chunks, ch': Chunks, p: int, nb: int, req: nat, how: Origin)
    requires LiveMap(ch1) == LiveMap(ch0) && Chosen(ch1, pool, ch', p, nb, req, how) && how != FromFast
             && NoFastFit(ch0, nb)
    ensures Chosen(ch0, pool, ch', p, nb, req, how)
  {
  }

  lemma ChosenPositive(v: View, ch0: Chunks, pool: Chunks, p: int, nb: int, req: nat, how: Origin)
    requires Core(v) && Chosen(ch0, pool, v.ch, p, nb, req, how)
    ensures p > 0
  {
  }

  /** Binning does not change what fits. */
  lemma NoFitBinned(pool: Chunks, ch: Chunks, nb: int)
    requires Rebinned(pool, ch)
    ensures NoFit(pool, nb) <==> NoFit(ch, nb)
  {
    if NoFit(ch, nb) { NoFitRebinned(pool, ch, nb); }
    if NoFit(pool, nb) {
      forall d | d in ch && Idle(ch[d]) ensures ch[d].size < nb { assert d in pool && Idle(pool[d]); }
    }
  }

  /** What `sYSMALLOc` reads of top: its size, which is 0 for the initial dummy. */
  lemma TopRoom(v: View, top: int)
    requires Core(v) && TopOK(v, top)
    ensures v.base < v.end ==>
              top in v.ch && Granule(top) && top > 0 && ChunkSize(Rd(v.sz, top)) == v.ch[top].size >= MINSIZE
              && top + v.ch[top].size == v.end
    ensures v.base >= v.end ==> top < 0 && ChunkSize(Rd(v.sz, top)) == 0
  {
    hide Granule;
    if v.base < v.end {
      hide Core;
      HeaderFacts(v, top);
      TopEnds(v, top);
    }
  }

  // ------------------------------------------------------------ realloc

  /** `set_head_size`: a new size under the old low bit. */
  function SetHeadSize(w: int, s: int): int {
    s + w % 2
  }

  /** The size words sz are those of w, except that the header of the block p and the in-use bit behind
      it are still to be written. */
  ghost predicate HeaderPending(w: View, sz: Words, p: int, newsize: int) {
    && p in w.ch && SetHeadSize(Rd(sz, p), newsize) == Rd(w.sz, p) && p + newsize in w.ch
    && SetLow(Rd(sz, p + newsize)) == Rd(w.sz, p + newsize)
    && (forall c :: c in w.ch && c != p && c != p + newsize ==> Rd(sz, c) == Rd(w.sz, c))
    && (forall a {:trigger w.stored[a]} :: a in w.stored ==> Rd(sz, a - 8) == Rd(w.sz, a - 8))
  }

  lemma WriteWhole(w0: View, sz: Words, p: int, newsize: int) returns (w: View)
    requires Core(w0) && p in w0.ch && w0.ch[p].size == newsize && HeaderPending(w0, sz, p, newsize) && newsize > 0
    ensures var sz1 := sz[p := SetHeadSize(Rd(sz, p), newsize)];
            w == w0.(sz := sz1[p + newsize := SetLow(Rd(sz1, p + newsize))])
    ensures Core(w) && (forall t :: TopOK(w0, t) && w0.base < w0.end ==> TopOK(w, t))
  {
    hide Core, SetHeadSize, SetLow;
    StoredAway(w0);
    var sz1 := sz[p := SetHeadSize(Rd(sz, p), newsize)];
    var sz2 := sz1[p + newsize := SetLow(Rd(sz1, p + newsize))];
    RetaggedCore(w0, sz2, w0.psz);
    w := w0.(sz := sz2);
  }

  /** The cut after forgetting the words behind it. */
  lemma CutView(w0: View, sz: Words, p: int, newsize: int, nb: int, req: nat) returns (w: View)
    requires Core(w0) && Settled(w0.ch) && p in w0.ch && w0.ch[p] == Chunk(newsize, Live(req))
             && HeaderPending(w0, sz, p, newsize)
    requires nb >= MINSIZE && Granule(nb) && newsize - nb >= MINSIZE
    ensures var sz1 := sz[p := SetHeadSize(Rd(sz, p), nb)][p + nb := (newsize - nb) + 1];
            w == w0.(ch := w.ch, stored := Trimmed(w0.stored, p, nb),
                     sz := sz1[p + nb + (newsize - nb) := SetLow(Rd(sz1, p + nb + (newsize - nb)))])
    ensures w.ch == w0.ch[p := Chunk(nb, Live(req))][p + nb := Chunk(newsize - nb, Held)]
    ensures Core(w) && SettledBut(w.ch, p + nb) && (forall t :: TopOK(w0, t) && w0.base < w0.end ==> TopOK(w, t))
    ensures LiveMap(w.ch) == LiveMap(w0.ch)[p := Chunk(nb, Live(req))]
  {
    hide Core, SetLow, SetHeadSize, Granule, Word, Settled, SettledBut, LiveMap;
    TrimmedCore(w0, p, nb);
    var u := w0.(stored := Trimmed(w0.stored, p, nb));
    w := WriteCut(u, sz, p, newsize, nb, req);
  }

  lemma WriteCut(w0: View, sz: Words, p: int, newsize: int, nb: int, req: nat) returns (w: View)
    requires Core(w0) && Settled(w0.ch) && p in w0.ch && w0.ch[p] == Chunk(newsize, Live(req))
             && HeaderPending(w0, sz, p, newsize)
    requires nb >= MINSIZE && Granule(nb) && newsize - nb >= MINSIZE && Within(w0.stored, p, nb)
    ensures var sz1 := sz[p := SetHeadSize(Rd(sz, p), nb)][p + nb := (newsize - nb) + 1];
            w == w0.(ch := w.ch, sz := sz1[p + nb + (newsize - nb) := SetLow(Rd(sz1, p + nb + (newsize - nb)))])
    ensures w.ch == w0.ch[p := Chunk(nb, Live(req))][p + nb := Chunk(newsize - nb, Held)]
    ensures Core(w) && SettledBut(w.ch, p + nb) && (forall t :: TopOK(w0, t) && w0.base < w0.end ==> TopOK(w, t))
    ensures LiveMap(w.ch) == LiveMap(w0.ch)[p := Chunk(nb, Live(req))]
  {
    hide Core, SetLow, Granule, Word, ChunkSize, PrevInuse;
    HeaderFacts(w0, p);
    CarvedCore(w0, p, nb, Live(req), Held);
    w := Carved(w0, p, nb, Live(req), Held);
    StoredAway(w);
    var sz1 := sz[p := SetHeadSize(Rd(sz, p), nb)][p + nb := (newsize - nb) + 1];
    var sz2 := sz1[p + newsize := SetLow(Rd(sz1, p + newsize))];
    RetaggedCore(w, sz2, w.psz);
    w := w.(sz := sz2);
  }

  lemma BlockBack(live: Chunks, p: int, req: nat)
    requires BlocksOK(live - {p}) && (p in live ==>
               live[p].st == Live(req) && Request2Size(req) <= live[p].size <= Request2Size(req) + MINSIZE)
    ensures BlocksOK(live)
  {
    hide Request2Size;
    forall c | c in live ensures BlockOK(live[c]) {
      if c != p { assert c in live - {p}; }
    }
  }

  /** The block p has a new size and request; every other block is as before. */
  ghost predicate Resized(ch: Chunks, ch': Chunks, p: int, nb: int, req: nat) {
    && p in LiveMap(ch) && p in ch' && ch'[p].st == Live(req) && nb <= ch'[p].size < nb + MINSIZE
    && LiveMap(ch') == LiveMap(ch)[p := ch'[p]]
  }

  lemma BlocksBut(live: Chunks, live': Chunks, p: int)
    requires BlocksOK(live) && live' - {p} == live - {p}
    ensures BlocksOK(live' - {p})
  {
    hide BlockOK;
    forall c | c in live' - {p} ensures BlockOK((live' - {p})[c]) {
      assert c in live - {p} && (live - {p})[c] == live[c];
    }
  }

  lemma FlagsShrunk(m: int, bins: seq<List>, bins': seq<List>, fast: seq<List>, c: int, i: int)
    requires FlagsOK(m, bins, fast) && |bins'| == |bins| && 1 <= i < |bins| && c in bins[i]
    ensures FlagsOK(m, bins', fast)
  {
    hide HaveAny, HaveFast;
    assert bins[i] != [];
  }

  lemma HeadSize(w: int, size: int, s: int)
    requires Word(size) && (w == size || w == size + 1)
    ensures SetHeadSize(w, s) == w - size + s && SetLow(w) == size + 1
  {
    SizeWord(w, size);
    hide Word;
    assert w % 2 == if PrevInuse(w) then 1 else 0;
  }

  /** Nothing grows; only the recorded request changes. */
  lemma GrowNone(v: View, p: int, req: nat) returns (w: View)
    requires Core(v) && Settled(v.ch) && p in v.ch && v.ch[p].st.Live?
    ensures w == v.(ch := v.ch[p := Chunk(v.ch[p].size, Live(req))])
    ensures Core(w) && Settled(w.ch) && HeaderPending(w, v.sz, p, v.ch[p].size)
            && (forall t :: TopOK(v, t) ==> TopOK(w, t))
    ensures LiveMap(w.ch) == LiveMap(v.ch)[p := w.ch[p]] && LiveMap(w.ch) - {p} == LiveMap(v.ch) - {p}
  {
    hide Core, Granule, Word, ChunkSize, PrevInuse, SetHeadSize, SetLow;
    HeaderFacts(v, p);
    NextFacts(v, p);
    HeaderFacts(v, Next(v.ch, p));
    GranuleWord(v, p);
    GranuleWord(v, Next(v.ch, p));
    HeadSize(Rd(v.sz, p), v.ch[p].size, v.ch[p].size);
    HeadSize(Rd(v.sz, Next(v.ch, p)), v.ch[Next(v.ch, p)].size, 0);
    MarkedCore(v, p, Live(req));
    w := v.(ch := Mark(v.ch, p, Live(req)));
  }

  lemma GranuleWord(v: View, c: int)
    requires Core(v) && c in v.ch
    ensures Word(v.ch[c].size)
  {
    hide Granule, Word;
    assert Placed(v.ch, v.base, v.end, c);
  }

  /** The header writes of a growth into top. */
  function CutHead(sz: Words, p: int, nb: int, newsize: int): Words {
    sz[p := SetHeadSize(Rd(sz, p), nb)][p + nb := (newsize - nb) + 1]
  }

  lemma BorrowView(v: View, p: int, top: int, nb: int, req: nat) returns (w: View)
    requires Core(v) && Settled(v.ch) && TopOK(v, top) && p in v.ch && v.ch[p].st.Live? && v.base < v.end
             && Next(v.ch, p) == top
    requires nb >= v.ch[p].size && Granule(nb) && v.ch[p].size + v.ch[top].size >= nb + MINSIZE
    ensures w == v.(ch := w.ch, sz := CutHead(v.sz, p, nb, v.ch[p].size + v.ch[top].size))
    ensures w.ch == (v.ch - {top})[p := Chunk(nb, Live(req))][p + nb := Chunk(v.ch[p].size + v.ch[top].size - nb, Top)]
    ensures Core(w) && Settled(w.ch) && TopOK(w, p + nb) && p in w.ch && w.ch[p] == Chunk(nb, Live(req))
    ensures LiveMap(w.ch) == LiveMap(v.ch)[p := w.ch[p]] && LiveMap(w.ch) - {p} == LiveMap(v.ch) - {p}
  {
    hide Core, Granule, Word, ChunkSize, PrevInuse, SetHeadSize;
    HeaderFacts(v, p);
    GranuleWord(v, p);
    HeadSize(Rd(v.sz, p), v.ch[p].size, nb);
    BorrowedCore(v, p, nb, Live(req));
    w := Borrowed(v, p, nb, Live(req));
  }

  /** A free chunk is taken off its list and held. */
  lemma TakenOff(v: View, i: int, k: int) returns (w: View)
    requires Core(v) && InBin(v, i, k)
    ensures var c := v.bins[i][k];
            && c in v.ch && v.ch[c].st == Binned(i) && Next(v.ch, c) in v.ch
            && w.ch == Mark(v.ch, c, Held) && w.bins == v.bins[i := Without(v.bins[i], k)]
            && w == v.(ch := w.ch, bins := w.bins, sz := v.sz[Next(v.ch, c) := v.ch[Next(v.ch, c)].size + 1],
                       fd := Unlinked(v, i, k).fd, bk := Unlinked(v, i, k).bk)
    ensures Core(w) && LiveMap(w.ch) == LiveMap(v.ch)
  {
    hide Core, Granule, Word;
    UnlinkedCore(v, i, k);
    var u := Unlinked(v, i, k);
    var c := v.bins[i][k];
    HeaderFacts(v, c);
    NextFacts(v, c);
    assert c in u.ch && u.ch[c].st.Loose? && u.ch[c].size == v.ch[c].size;
    WokenCore(u, c, Held);
    w := Woken(u, c, Held);
    assert w.ch == Mark(v.ch, c, Held);
  }

  /** The block p has absorbed the free chunk behind it. */
  lemma GrowNext(v: View, p: int, k: int, req: nat) returns (w: View)
    requires Core(v) && Settled(v.ch) && p in v.ch && v.ch[p].st.Live? && Next(v.ch, p) in v.ch
             && v.ch[Next(v.ch, p)].st.Binned?
    requires var i := v.ch[Next(v.ch, p)].st.bin; InBin(v, i, k) && v.bins[i][k] == Next(v.ch, p)
    ensures var n := Next(v.ch, p); var i := v.ch[n].st.bin; var size := v.ch[p].size + v.ch[n].size;
            && w.ch == (v.ch - {n})[p := Chunk(size, Live(req))] && w.bins == v.bins[i := Without(v.bins[i], k)]
            && w == v.(ch := w.ch, bins := w.bins, sz := w.sz, fd := Unlinked(v, i, k).fd, bk := Unlinked(v, i, k).bk)
            && HeaderPending(w, v.sz, p, size)
    ensures Core(w) && Settled(w.ch) && Shrunk(v.bins, w.bins) && (forall t ::
              TopOK(v, t) && v.base < v.end ==> TopOK(w, t))
    ensures LiveMap(w.ch) == LiveMap(v.ch)[p := w.ch[p]] && LiveMap(w.ch) - {p} == LiveMap(v.ch) - {p}
  {
    hide Core, Granule, Word, ChunkSize, PrevInuse, SetHeadSize, SetLow, Settled, LiveMap, Shrunk, Unlinked, Without;
    var n := Next(v.ch, p);
    var i := v.ch[n].st.bin;
    var nn := Next(v.ch, n);
    HeaderFacts(v, p);
    NextFacts(v, n);
    HeaderFacts(v, nn);
    GranuleWord(v, p);
    GranuleWord(v, nn);
    HeadSize(Rd(v.sz, p), v.ch[p].size, v.ch[p].size + v.ch[n].size);
    HeadSize(Rd(v.sz, nn), v.ch[nn].size, 0);
    var u := TakenOff(v, i, k);
    NotLiveBare(u, n);
    StoredAway(v);
    MergedCore(u, p, Live(req));
    w := Merged(u, p, Live(req));
    assert w.ch == (v.ch - {n})[p := Chunk(v.ch[p].size + v.ch[n].size, Live(req))];
    AbsorbedBlocks(v.ch, w.ch, p, n, req);
    ShrunkByOne(v.bins, i, k);
  }

  lemma AbsorbedBlocks(ch: Chunks, ch': Chunks, p: int, n: int, req: nat)
    requires Settled(ch) && p in ch && n in ch && p != n && ch[n].st.Binned?
    requires ch' == (ch - {n})[p := Chunk(ch[p].size + ch[n].size, Live(req))]
    ensures Settled(ch') && LiveMap(ch') == LiveMap(ch)[p := ch'[p]] && LiveMap(ch') - {p} == LiveMap(ch) - {p}
  {
  }

  lemma ShrunkByOne(bins: seq<List>, i: int, k: int)
    requires 0 <= i < |bins| && 0 <= k < |bins[i]|
    ensures Shrunk(bins, bins[i := Without(bins[i], k)])
  {
  }

  // ------------------------------------------------------------ contents

  /** The contents of a chunk are an odd number of words, minimally 3. */
  lemma OddWords(size: int)
    requires size >= MINSIZE && Granule(size)
    ensures (size - 8) / 8 >= 3 && (size - 8) / 8 % 2 == 1 && (size - 8) / 8 * 8 == size - 8
  {
    var q := size / 16;
    assert size == 16 * q && (size - 8) / 8 == 2 * q - 1;
  }

  /** The chunk of a block, or an empty one if there is no such block. */
  function Block(ch: Chunks, mem: int): Chunk {
    if mem - 16 in ch then ch[mem - 16] else Chunk(0, Held)
  }

  /** The block p is now q, with its new size and request; every other block is as before. */
  ghost predicate Moved(ch: Chunks, ch': Chunks, p: int, q: int, nb: int, req: nat) {
    && q in ch' && ch'[q].st == Live(req) && nb <= ch'[q].size < nb + MINSIZE && (q == p || q !in LiveMap(ch))
    && LiveMap(ch') == (LiveMap(ch) - {p})[q := ch'[q]]
  }

  lemma MovedHere(ch: Chunks, ch': Chunks, p: int, nb: int, req: nat)
    requires Resized(ch, ch', p, nb, req)
    ensures Moved(ch, ch', p, p, nb, req)
  {
    assert (LiveMap(ch) - {p})[p := ch'[p]] == LiveMap(ch)[p := ch'[p]];
  }

  lemma ChosenFacts(ch0: Chunks, pool: Chunks, ch': Chunks, q: int, nb: int, req: nat, how: Origin, p: int)
    requires Chosen(ch0, pool, ch', q, nb, req, how) && p in LiveMap(ch0)
    ensures q in LiveMap(ch') && q != p && p in LiveMap(ch') && ch'[p] == ch0[p] && ch'[q].st == Live(req)
            && nb <= ch'[q].size < nb + MINSIZE
    ensures LiveMap(ch') == LiveMap(ch0)[q := ch'[q]] && q !in LiveMap(ch0)
  {
    hide BestFit, NoFit, NoExactFit;
    assert p in LiveMap(ch') && LiveMap(ch')[p] == LiveMap(ch0)[p];
  }

  lemma ChosenTaken(ch0: Chunks, pool: Chunks, ch': Chunks, q: int, nb: int, req: nat, how: Origin)
    requires Chosen(ch0, pool, ch', q, nb, req, how)
    ensures q in ch' && Taken(ch0, ch', q, ch'[q].size, req)
  {
  }

  lemma MovedJoin(ch0: Chunks, ch1: Chunks, ch': Chunks, p: int, n: int, nb: int, req: nat)
    requires p in LiveMap(ch0) && n !in LiveMap(ch0) && n != p && n in ch1
    requires p in ch' && ch'[p].st == Live(req) && nb <= ch'[p].size < nb + MINSIZE
    requires LiveMap(ch1) == LiveMap(ch0)[n := ch1[n]] && LiveMap(ch') == (LiveMap(ch1) - {n})[p := ch'[p]]
    ensures Moved(ch0, ch', p, p, nb, req)
  {
    assert (LiveMap(ch0)[n := ch1[n]] - {n})[p := ch'[p]] == (LiveMap(ch0) - {p})[p := ch'[p]];
  }

  lemma MovedCopy(ch0: Chunks, ch1: Chunks, ch': Chunks, p: int, q: int, nb: int, req: nat)
    requires p in LiveMap(ch0) && q !in LiveMap(ch0) && q in ch1 && ch1[q].st == Live(req)
             && nb <= ch1[q].size < nb + MINSIZE
    requires LiveMap(ch1) == LiveMap(ch0)[q := ch1[q]] && LiveMap(ch') == LiveMap(ch1) - {p}
    ensures Moved(ch0, ch', p, q, nb, req) && ch'[q] == ch1[q]
  {
    assert q in LiveMap(ch');
    assert LiveMap(ch0)[q := ch1[q]] - {p} == (LiveMap(ch0) - {p})[q := ch1[q]];
  }

  lemma SettledAll(ch: Chunks, p: int)
    requires Settled(ch)
    ensures SettledBut(ch, p)
  {
  }

  /** Distinct chunks have disjoint user areas, although each area extends into the next header. */
  lemma AreasApart(v: View, p: int, q: int)
    requires Core(v) && p in v.ch && q in v.ch && p != q
    ensures p + v.ch[p].size + 8 <= q + 16 || q + v.ch[q].size + 8 <= p + 16
  {
    assert Apart(v.ch, p, q) && Apart(v.ch, q, p);
  }

  lemma ReadyPositive(v: View, p: int)
    requires Core(v) && p in v.ch
    ensures p > 0
  {
  }

  lemma BlocksLess(live: Chunks, live': Chunks, p: int)
    requires BlocksOK(live) && forall c :: c in live' && c != p ==> c in live && live'[c] == live[c]
    ensures BlocksOK(live' - {p})
  {
    hide BlockOK;
  }

  /** The block p has absorbed the block behind it. */
  lemma GrowNeighbour(v: View, p: int, req: nat) returns (w: View)
    requires Core(v) && Settled(v.ch) && p in v.ch && v.ch[p].st.Live? && Next(v.ch, p) in v.ch
             && v.ch[Next(v.ch, p)].st.Live?
    requires Bare(v.stored, Next(v.ch, p))
    ensures var n := Next(v.ch, p); var size := v.ch[p].size + v.ch[n].size;
            && w.ch == (v.ch - {n})[p := Chunk(size, Live(req))] && w == v.(ch := w.ch, sz := w.sz)
            && HeaderPending(w, v.sz, p, size)
            && LiveMap(w.ch) == (LiveMap(v.ch) - {n})[p := w.ch[p]]
    ensures Core(w) && Settled(w.ch) && (forall t :: TopOK(v, t) && v.base < v.end ==> TopOK(w, t))
  {
    hide Core, Granule, Word, ChunkSize, PrevInuse, SetHeadSize, SetLow;
    var n := Next(v.ch, p);
    HeaderFacts(v, p);
    NextFacts(v, p);
    NextFacts(v, n);
    var nn := Next(v.ch, n);
    HeaderFacts(v, nn);
    GranuleWord(v, p);
    GranuleWord(v, nn);
    HeadSize(Rd(v.sz, p), v.ch[p].size, v.ch[p].size + v.ch[n].size);
    HeadSize(Rd(v.sz, nn), v.ch[nn].size, 0);
    StoredAway(v);
    MarkedCore(v, n, Held);
    w := v.(ch := Mark(v.ch, n, Held));
    MergedCore(w, p, Live(req));
    w := Merged(w, p, Live(req));
  }

  // ------------------------------------------------------------ memalign

  /** A power of two. */
  predicate IsPow2(n: nat) {
    n == 1 || (n > 0 && n % 2 == 0 && IsPow2(n / 2))
  }

  lemma ThirtyTwo()
    ensures IsPow2(32) && IsPow2(16)
  {
    assert IsPow2(2) && IsPow2(4) && IsPow2(8);
  }

  lemma DoublePower(x: nat)
    requires IsPow2(x)
    ensures IsPow2(2 * x)
  {
    assert 2 * x / 2 == x && 2 * x % 2 == 0;
  }

  lemma NextPower(x: nat, b: nat)
    requires IsPow2(x) && IsPow2(b) && x < b
    ensures 2 * x <= b
  {
    if x > 1 {
      NextPower(x / 2, b / 2);
    }
  }

  lemma PowerGranule(a: nat)
    requires IsPow2(a) && a >= 16
    ensures Granule(a)
  {
    if a > 16 {
      ThirtyTwo();
      NextPower(16, a);
      PowerGranule(a / 2);
      assert a == 2 * (a / 2);
    }
  }

  /** The bytes in front of the aligned spot: none, or enough for a chunk. */
  function LeadOf(m: int, a: int): int
    requires a > 0
  {
    if m % a == 0 then 0
    else
      var gap := RoundUp(m, a) - m;
      if gap < MINSIZE then gap + a else gap
  }

  lemma LeadFacts(m: int, a: int)
    requires a >= MINSIZE && Granule(a) && Granule(m)
    ensures (m + LeadOf(m, a)) % a == 0 && Granule(LeadOf(m, a)) && LeadOf(m, a) <= a + 16
    ensures m % a == 0 || LeadOf(m, a) >= MINSIZE
  {
    hide Granule, RoundUp;
    var up := RoundUp(m, a);
    var gap := up - m;
    RoundUpFacts(m, a);
    RoundUpMultiple(m, a);
    GranuleSum(up, m);
    GranuleSum(gap, a);
    GapBound(gap);
    GranuleSum(a, a);
    var lead := LeadOf(m, a);
    assert m + lead == m || m + lead == up || m + lead == up + a;
  }

  lemma GapBound(gap: int)
    requires Granule(gap)
    ensures gap < MINSIZE ==> gap <= 16
  {
  }

  lemma RoundUpMultiple(m: int, a: int)
    requires a > 0
    ensures RoundUp(m, a) % a == 0 && (RoundUp(m, a) + a) % a == 0
  {
    var q := (m + a - 1) / a;
    MultipleMod(q, a);
    MultipleMod(q + 1, a);
    assert (q + 1) * a == q * a + a;
  }

  lemma MultipleMod(q: int, a: int)
    requires a > 0
    ensures q * a % a == 0
  {
    var r := q * a % a;
    var d := q - q * a / a;
    assert d * a == r;
    assert d >= 1 ==> d * a >= a;
    assert d <= -1 ==> d * a <= -a;
  }

  lemma PaddedSize(nb: int, a: int)
    requires nb >= MINSIZE && Granule(nb) && a >= MINSIZE && Granule(a)
    ensures Request2Size(nb + a + MINSIZE) == nb + a + MINSIZE + 16
  {
    var q := nb / 16 + a / 16 + 3;
    assert nb + a + MINSIZE + 16 == 16 * q;
    assert (nb + a + MINSIZE + 23) / 16 == q;
  }

  /** A multiple of a power of two is one of every smaller power of two. */
  lemma {:induction false} PowersDivide(a: nat, b: nat, m: int)
    requires IsPow2(a) && IsPow2(b) && a <= b && m % b == 0
    ensures m % a == 0
    decreases b
  {
    if a < b {
      NextPower(a, b);
      var h := b / 2;
      var q := m / b;
      assert m == b * q && b == 2 * h;
      assert m == (2 * q) * h;
      MultipleMod(2 * q, h);
      PowersDivide(a, h, m);
    }
  }

  /** a is the least power of two that is no less than n. */
  ghost predicate LeastPower(a: nat, n: nat) {
    IsPow2(a) && a > 0 && a >= n && forall b: nat {:trigger IsPow2(b)} :: IsPow2(b) && b >= n ==> a <= b
  }

  /** m is a multiple of the least power of two that is no less than n. */
  ghost predicate AlignedTo(m: int, n: nat) {
    exists a: nat {:trigger IsPow2(a)} :: LeastPower(a, n) && m % a == 0
  }

  /** There is one no larger than any given power that will do. */
  lemma {:induction false} SomeLeast(n: nat, a: nat) returns (b: nat)
    requires IsPow2(a) && a >= n
    ensures LeastPower(b, n) && b <= a
    decreases a
  {
    if a > 1 && a / 2 >= n {
      b := SomeLeast(n, a / 2);
    } else {
      b := a;
      forall c: nat {:trigger IsPow2(c)} | IsPow2(c) && c >= n ensures a <= c {
        if c < a { NextPower(c, a); }
      }
    }
  }

  /** What is aligned to some power of two that will do is aligned to the least one. */
  lemma LeastAligned(n: nat, a: nat, m: int)
    requires IsPow2(a) && a >= n && m % a == 0
    ensures AlignedTo(m, n)
  {
    hide IsPow2;
    var b := SomeLeast(n, a);
    PowersDivide(b, a, m);
    assert IsPow2(b);
  }

  lemma SixteenAligned(v: View, p: int)
    requires Core(v) && p in v.ch
    ensures IsPow2(16) && (p + 16) % 16 == 0
  {
    ThirtyTwo();
    hide Core;
    HeaderFacts(v, p);
  }

  lemma ChosenSize(ch0: Chunks, pool: Chunks, ch': Chunks, q: int, nb: int, req: nat, how: Origin)
    requires Chosen(ch0, pool, ch', q, nb, req, how)
    ensures q in ch' && nb <= ch'[q].size < nb + MINSIZE
  {
  }

  /** The size words after the front `lead` bytes of the chunk at p became a chunk of their own. */
  function LeadWords(sz: Words, p: int, lead: int, size: int): Words {
    var sz1 := sz[p + lead := size + 1];
    var sz2 := sz1[p + lead + size := SetLow(Rd(sz1, p + lead + size))];
    sz2[p := SetHeadSize(Rd(sz2, p), lead)]
  }

  /** The size words after all but the first nb bytes of the chunk at p became a chunk of their own. */
  function TailWords(sz: Words, p: int, nb: int, size: int): Words {
    var sz1 := sz[p + nb := size + 1];
    sz1[p := SetHeadSize(Rd(sz1, p), nb)]
  }

  lemma LeadView(v: View, p: int, lead: int) returns (w: View)
    requires Core(v) && Settled(v.ch) && p in v.ch && v.ch[p].st.Live?
    requires lead >= MINSIZE && Granule(lead) && v.ch[p].size - lead >= MINSIZE && Bare(v.stored, p)
    ensures var q, size := p + lead, v.ch[p].size - lead;
            && q !in v.ch && w.ch == v.ch[p := Chunk(lead, Held)][q := Chunk(size, Live(size - 8))]
            && w == v.(ch := w.ch, sz := LeadWords(v.sz, p, lead, size)) && Granule(size)
            && LiveMap(w.ch) == (LiveMap(v.ch) - {p})[q := w.ch[q]]
    ensures Core(w) && SettledBut(w.ch, p) && (forall t :: TopOK(v, t) && v.base < v.end ==> TopOK(w, t))
            && v.base < v.end
  {
    hide Core, Granule, Word, ChunkSize, PrevInuse, SetHeadSize, SetLow;
    var q, size := p + lead, v.ch[p].size - lead;
    HeaderFacts(v, p);
    NextFacts(v, p);
    var n := Next(v.ch, p);
    HeaderFacts(v, n);
    GranuleWord(v, p);
    GranuleWord(v, n);
    HeadSize(Rd(v.sz, p), v.ch[p].size, lead);
    HeadSize(Rd(v.sz, n), v.ch[n].size, 0);
    GranuleSum(v.ch[p].size, lead);
    CarvedCore(v, p, lead, Held, Live(size - 8));
    w := Carved(v, p, lead, Held, Live(size - 8));
    StoredAway(w);
    var sz1 := v.sz[q := size + 1];
    var sz2 := sz1[n := SetLow(Rd(sz1, n))];
    var sz3 := sz2[p := SetHeadSize(Rd(sz2, p), lead)];
    RetaggedCore(w, sz3, w.psz);
    w := w.(sz := sz3);
  }

  /** A block that is a whole number of granules is the least one for size - 8 bytes. */
  lemma LeadBlock(live: Chunks, live': Chunks, p: int, q: int, size: int)
    requires size >= MINSIZE && Granule(size) && BlocksOK(live) && live' ==
             (live - {p})[q := Chunk(size, Live(size - 8))]
    ensures BlocksOK(live')
  {
    assert Request2Size(size - 8) == size by {
      assert size == 16 * (size / 16);
      assert (size + 15) / 16 == size / 16;
    }
    hide Request2Size;
  }

  lemma TailView(v: View, p: int, nb: int, req: nat) returns (w: View)
    requires Core(v) && Settled(v.ch) && p in v.ch && v.ch[p].st.Live?
    requires nb >= MINSIZE && Granule(nb) && v.ch[p].size - nb >= MINSIZE && Within(v.stored, p, nb)
    ensures var q, size := p + nb, v.ch[p].size - nb;
            && w.ch == v.ch[p := Chunk(nb, Live(req))][q := Chunk(size, Held)]
            && w == v.(ch := w.ch, sz := TailWords(v.sz, p, nb, size))
            && LiveMap(w.ch) == LiveMap(v.ch)[p := w.ch[p]] && LiveMap(w.ch) - {p} == LiveMap(v.ch) - {p}
    ensures Core(w) && SettledBut(w.ch, p + nb) && (forall t :: TopOK(v, t) && v.base < v.end ==> TopOK(w, t))
            && v.base < v.end
  {
    hide Core, Granule, Word, ChunkSize, PrevInuse, SetHeadSize, SetLow;
    var q, size := p + nb, v.ch[p].size - nb;
    HeaderFacts(v, p);
    GranuleWord(v, p);
    HeadSize(Rd(v.sz, p), v.ch[p].size, nb);
    CarvedCore(v, p, nb, Live(req), Held);
    w := Carved(v, p, nb, Live(req), Held);
    StoredAway(w);
    var sz1 := v.sz[q := size + 1];
    var sz2 := sz1[p := SetHeadSize(Rd(sz1, p), nb)];
    RetaggedCore(w, sz2, w.psz);
    w := w.(sz := sz2);
  }

  /** The block p0 was made, became p, and was cut back; seen from outside, p was made. */
  lemma AlignedTaken(ch0: Chunks, ch1: Chunks, ch2: Chunks, ch': Chunks, p0: int, p: int, req: nat)
    requires p0 !in LiveMap(ch0) && p0 in ch1 && LiveMap(ch1) == LiveMap(ch0)[p0 := ch1[p0]]
    requires p in ch2 && ((p == p0 && ch2 == ch1) || (p !in ch1 && LiveMap(ch2) == (LiveMap(ch1) - {p0})[p := ch2[p]]))
    requires p in ch' && ch'[p].st == Live(req) && LiveMap(ch') == LiveMap(ch2)[p := ch'[p]]
    ensures Taken(ch0, ch', p, ch'[p].size, req)
  {
    assert p !in LiveMap(ch0) by {
      assert p in LiveMap(ch0) && p != p0 ==> p in LiveMap(ch1);
    }
    assert LiveMap(ch') == LiveMap(ch0)[p := ch'[p]];
  }
}
