/** The allocator's whole state as one value, and the elementary steps every operation is made of.
    Each step keeps `Core`: tiling, tags, coalescing, bins, links, fastbins and the users' words. */
module HeapView {
  import opened Sizes
  import opened Layout
  import opened Shelves

  /** A word a user has stored, and the block it lies in. */
  datatype Cell = Cell(block: int, word: int)

  type Cells = map<int, Cell>

  datatype View = View(ch: Chunks, base: int, end: int, sz: Words, psz: Words,
                       fd: Words, bk: Words, bins: seq<List>, fast: seq<List>, heads: seq<int>, stored: Cells)

  ghost predicate Core(v: View) {
    && Sound(v.ch, v.base, v.end, v.sz, v.psz) && Positive(v.ch)
    && Shelved(v.ch, v.bins) && Sorted(v.ch, v.bins) && Rings(v.fd, v.bk, v.bins)
    && FastShelved(v.ch, v.fast) && Chains(v.fd, v.heads, v.fast)
    && StoredOK(v)
  }

  // ------------------------------------------------------------ users' words

  /** The word at address a lies in the block at c: from its `fd` field up to and including the
      `prev_size` field of the chunk behind it. */
  predicate Inside(ch: Chunks, c: int, a: int)
    requires c in ch
  {
    c + 16 <= a <= Next(ch, c) && Word(a)
  }

  /** One address may be a `prev_size`, `size`, `fd` or `bk` word of a header: all four hold x. */
  predicate Holds(v: View, a: int, x: int) {
    Rd(v.psz, a) == x && Rd(v.sz, a - 8) == x && Rd(v.fd, a - 16) == x && Rd(v.bk, a - 24) == x
  }

  /** The word stored at a is still there, in a block that is still in use. */
  predicate StoredAt(v: View, a: int)
    requires a in v.stored
  {
    var c := v.stored[a].block;
    c in v.ch && v.ch[c].st.Live? && Inside(v.ch, c, a) && Holds(v, a, v.stored[a].word)
  }

  ghost predicate StoredOK(v: View) {
    forall a {:trigger StoredAt(v, a)} :: a in v.stored ==> StoredAt(v, a)
  }

  /** No word has been stored in the chunk at c. */
  ghost predicate Bare(stored: Cells, c: int) {
    forall a {:trigger stored[a]} :: a in stored ==> stored[a].block != c
  }

  /** What is stored in the chunk at c lies within its first k bytes and the word behind them. */
  ghost predicate Within(stored: Cells, c: int, k: int) {
    forall a {:trigger stored[a]} :: a in stored && stored[a].block == c ==> a <= c + k
  }

  lemma GranulePositive(c: int)
    requires Granule(c) && c > 0
    ensures c >= 16
  {
  }

  /** The chunk d does not overlap the chunk c. */
  predicate Clear(ch: Chunks, d: int, c: int)
    requires c in ch
  {
    d in ch && d != c ==> Next(ch, d) <= c || Next(ch, c) <= d
  }

  /** The address of a stored word, seen as that of a header field: no size word; the `prev_size` word only
      of the chunk behind the block; the links only of the block itself. */
  lemma StoredPlace(v: View, a: int)
    requires Sound(v.ch, v.base, v.end, v.sz, v.psz) && Positive(v.ch) && a in v.stored && StoredAt(v, a)
    ensures var c := v.stored[a].block;
            && c in v.ch && c > 0 && a - 24 > 0 && a - 8 !in v.ch
            && (a in v.ch ==> a == Next(v.ch, c)) && (a - 16 in v.ch ==> a - 16 == c)
              && (a - 24 in v.ch ==> a - 24 == c)
    ensures forall d {:trigger Clear(v.ch, d, v.stored[a].block)} :: Clear(v.ch, d, v.stored[a].block)
  {
    var c := v.stored[a].block;
    hide Word, Granule;
    assert Placed(v.ch, v.base, v.end, c);
    GranulePositive(c);
    forall d {:trigger Clear(v.ch, d, c)} ensures Clear(v.ch, d, c) {
      assert d in v.ch ==> Apart(v.ch, c, d) && Apart(v.ch, d, c);
    }
    assert a - 8 in v.ch ==> Clear(v.ch, a - 8, c) && Placed(v.ch, v.base, v.end, a - 8);
    assert a in v.ch ==> Clear(v.ch, a, c) && Placed(v.ch, v.base, v.end, a);
    assert a - 16 in v.ch ==> Clear(v.ch, a - 16, c) && Placed(v.ch, v.base, v.end, a - 16);
    assert a - 24 in v.ch ==> Clear(v.ch, a - 24, c) && Placed(v.ch, v.base, v.end, a - 24);
  }

  lemma StoredAway(v: View)
    requires Core(v)
    ensures forall a {:trigger v.stored[a]} :: a in v.stored ==> a - 8 !in v.ch
  {
    hide Sound;
    forall a {:trigger v.stored[a]} | a in v.stored ensures a - 8 !in v.ch {
      assert StoredAt(v, a);
      StoredPlace(v, a);
    }
  }

  lemma NotLiveBare(v: View, c: int)
    requires Core(v) && (c in v.ch ==> !v.ch[c].st.Live?)
    ensures Bare(v.stored, c)
  {
    forall a {:trigger v.stored[a]} | a in v.stored ensures v.stored[a].block != c {
      assert StoredAt(v, a);
    }
  }

  /** The blocks that belong to users. */
  function LiveMap(ch: Chunks): Chunks {
    map c | c in ch && ch[c].st.Live? :: ch[c]
  }

  // ------------------------------------------------------------ reading the tags

  /** The flag bits of a size word do not disturb the size. */
  lemma SizeWord(w: int, size: int)
    requires Word(size) && (w == size || w == size + 1)
    ensures ChunkSize(w) == size && (PrevInuse(w) <==> w == size + 1)
  {
    assert size == 8 * (size / 8);
  }

  lemma HeaderFacts(v: View, c: int)
    requires Core(v) && c in v.ch
    ensures c > 0 && Granule(c) && v.base <= c && v.ch[c].size >= MINSIZE && c + v.ch[c].size <= v.end
    ensures !v.ch[c].st.Top? ==> Granule(v.ch[c].size)
    ensures ChunkSize(Rd(v.sz, c)) == v.ch[c].size
    ensures PrevInuse(Rd(v.sz, c)) <==> FrontUsed(v.ch, v.sz, c)
    ensures Rd(v.sz, c) == v.ch[c].size + (if FrontUsed(v.ch, v.sz, c) then 1 else 0)
    ensures v.ch[c].st.Top? ==> FrontUsed(v.ch, v.sz, c)
    ensures Idle(v.ch[c]) ==> FrontUsed(v.ch, v.sz, c)
  {
    hide ChunkSize, PrevInuse, Word, Granule;
    assert Placed(v.ch, v.base, v.end, c) && HeaderOK(v.ch, v.sz, v.psz, c);
    SizeWord(Rd(v.sz, c), v.ch[c].size);
    var q := c - Rd(v.psz, c);
    if Rd(v.sz, c) == v.ch[c].size {
      assert Bordered(v.ch, q);
    }
  }

  lemma CoreShape(v: View)
    requires Core(v)
    ensures |v.bins| == NBINS && |v.fast| == |v.heads| == NFASTBINS
  {
  }

  /** `prev_chunk`, when the low bit of the header is clear. */
  lemma FrontFacts(v: View, c: int)
    requires Core(v) && c in v.ch && !FrontUsed(v.ch, v.sz, c)
    ensures var q := c - Rd(v.psz, c);
            q in v.ch && Idle(v.ch[q]) && Next(v.ch, q) == c && v.ch[q].size == Rd(v.psz, c) && q < c
  {
    var q := c - Rd(v.psz, c);
    assert HeaderOK(v.ch, v.sz, v.psz, c);
    assert Placed(v.ch, v.base, v.end, q);
  }

  /** `next_chunk` and the in-use bit it holds. */
  lemma NextFacts(v: View, c: int)
    requires Core(v) && c in v.ch && !v.ch[c].st.Top?
    ensures var n := Next(v.ch, c);
            && n in v.ch && c < n && (FrontUsed(v.ch, v.sz, n) <==> !Idle(v.ch[c]))
            && (Idle(v.ch[c]) ==> !Idle(v.ch[n]) && !v.ch[n].st.Top?)
  {
    assert Placed(v.ch, v.base, v.end, c) && TailOK(v.ch, v.sz, v.psz, c) && Bordered(v.ch, c);
  }

  // ------------------------------------------------------------ steps

  lemma RingsFrame(ch: Chunks, bins: seq<List>, fd: Words, bk: Words, fd': Words, bk': Words)
    requires Shelved(ch, bins) && Rings(fd, bk, bins)
    requires forall x :: (x in ch && ch[x].st.Binned?) || x < 0 ==> Rd(fd', x) == Rd(fd, x) && Rd(bk', x) == Rd(bk, x)
    ensures Rings(fd', bk', bins)
  {
    forall j {:trigger RingAt(fd', bk', bins, j)} | 1 <= j < |bins| ensures RingAt(fd', bk', bins, j) {
      assert BinHolds(ch, bins, j) && RingAt(fd, bk, bins, j);
      assert Bin(j) < 0;
      RingFrame(fd, bk, fd', bk', Bin(j), bins[j]);
    }
  }

  /** A change of chunks that the lists do not see. */
  lemma ListsFrame(v: View, ch': Chunks)
    requires Core(v)
    requires forall c {:trigger SameShelf(v.ch, ch', c)} :: SameShelf(v.ch, ch', c)
    requires forall c {:trigger SameFast(v.ch, ch', c)} :: SameFast(v.ch, ch', c)
    ensures Shelved(ch', v.bins) && Sorted(ch', v.bins)
    ensures FastShelved(ch', v.fast) && Chains(v.fd, v.heads, v.fast)
  {
    hide Sound, Positive, Rings;
    ShelvesFrame(v.ch, ch', v.bins);
    FastFrame(v.ch, ch', v.fast, v.fd, v.fd, v.heads);
  }

  predicate InBin(v: View, i: int, k: int) {
    1 <= i < NBINS == |v.bins| && 0 <= k < |v.bins[i]| && v.bins[i][k] in v.ch
  }

  /** `unlink`: a chunk leaves its bin. */
  function Unlinked(v: View, i: int, k: int): View
    requires InBin(v, i, k)
  {
    var p, n := Node(Bin(i), v.bins[i], k - 1), Node(Bin(i), v.bins[i], k + 1);
    v.(ch := Mark(v.ch, v.bins[i][k], Loose), bins := v.bins[i := Without(v.bins[i], k)],
       fd := v.fd[p := n], bk := v.bk[n := p])
  }

  lemma UnlinkedStored(v: View, i: int, k: int)
    requires Core(v) && InBin(v, i, k)
    ensures StoredOK(Unlinked(v, i, k))
  {
    var w, s := Unlinked(v, i, k), v.bins[i];
    assert BinHolds(v.ch, v.bins, i) && s[k] in s;
    var p, n := Node(Bin(i), s, k - 1), Node(Bin(i), s, k + 1);
    assert p == Bin(i) < 0 || p in s;
    assert n == Bin(i) < 0 || n in s;
    hide Sound, Rings, Sorted, Shelved, Word, Granule;
    forall a {:trigger StoredAt(w, a)} | a in w.stored ensures StoredAt(w, a) {
      assert StoredAt(v, a);
      StoredPlace(v, a);
    }
  }

  lemma UnlinkedCore(v: View, i: int, k: int)
    requires Core(v) && InBin(v, i, k)
    ensures Core(Unlinked(v, i, k)) && LiveMap(Unlinked(v, i, k).ch) == LiveMap(v.ch)
    ensures v.ch[v.bins[i][k]].st == Binned(i)
    ensures Rd(v.fd, v.bins[i][k]) == Node(Bin(i), v.bins[i], k + 1)
    ensures Rd(v.bk, v.bins[i][k]) == Node(Bin(i), v.bins[i], k - 1)
  {
    var c := v.bins[i][k];
    var v' := Unlinked(v, i, k);
    ShelvedUnlink(v.ch, v.bins, i, k);
    RingsUnlink(v.ch, v.bins, v.fd, v.bk, i, k);
    SortedUnlink(v.ch, v.bins, i, k, v'.ch);
    Recolour(v.ch, v.base, v.end, v.sz, v.psz, c, Loose);
    assert BinHolds(v.ch, v.bins, i);
    var p := Node(Bin(i), v.bins[i], k - 1);
    assert p == Bin(i) < 0 || p in v.bins[i];
    UnlinkedStored(v, i, k);
    hide Sound, Rings, Sorted, Shelved, StoredOK;
    FastFrame(v.ch, v'.ch, v.fast, v.fd, v'.fd, v.heads);
  }

  /** A loose chunk enters bin i as element k. */
  function Inserted(v: View, i: int, k: int, c: int): View
    requires 1 <= i < NBINS == |v.bins| && 0 <= k <= |v.bins[i]| && c in v.ch
  {
    var p, n := Node(Bin(i), v.bins[i], k - 1), Node(Bin(i), v.bins[i], k);
    v.(ch := Mark(v.ch, c, Binned(i)), bins := v.bins[i := InsertAt(v.bins[i], k, c)],
       fd := v.fd[c := n][p := c], bk := v.bk[c := p][n := c])
  }

  /** Element k is where a chunk of this size belongs in bin i; the unsorted queue takes anything. */
  ghost predicate Fits(ch: Chunks, s: List, i: int, k: int, size: int) {
    i == 1 ||
    (&& size >= 0 && BinIndex(size) == i
     && (forall j :: 0 <= j < k && j < |s| && s[j] in ch ==> ch[s[j]].size >= size)
     && (forall j :: 0 <= j && k <= j < |s| && s[j] in ch ==> size >= ch[s[j]].size))
  }

  lemma InsertedStored(v: View, i: int, k: int, c: int)
    requires Core(v) && 1 <= i < NBINS == |v.bins| && 0 <= k <= |v.bins[i]| && c in v.ch && v.ch[c].st.Loose?
    ensures StoredOK(Inserted(v, i, k, c))
  {
    var w, s := Inserted(v, i, k, c), v.bins[i];
    assert BinHolds(v.ch, v.bins, i);
    var p, n := Node(Bin(i), s, k - 1), Node(Bin(i), s, k);
    assert p == Bin(i) < 0 || p in s;
    assert n == Bin(i) < 0 || n in s;
    hide Sound, Rings, Sorted, Shelved, Word, Granule;
    forall a {:trigger StoredAt(w, a)} | a in w.stored ensures StoredAt(w, a) {
      assert StoredAt(v, a);
      StoredPlace(v, a);
    }
  }

  lemma InsertedCore(v: View, i: int, k: int, c: int)
    requires Core(v) && 1 <= i < NBINS == |v.bins| && 0 <= k <= |v.bins[i]| && c in v.ch
    requires v.ch[c].st.Loose? && Fits(v.ch, v.bins[i], i, k, v.ch[c].size)
    ensures Core(Inserted(v, i, k, c)) && LiveMap(Inserted(v, i, k, c).ch) == LiveMap(v.ch)
  {
    hide BinIndex;
    var v' := Inserted(v, i, k, c);
    ShelvedInsert(v.ch, v.bins, i, k, c);
    RingsInsert(v.ch, v.bins, v.fd, v.bk, i, k, c);
    if i == 1 { SortedQueue(v.ch, v.bins, k, c); } else { SortedInsert(v.ch, v.bins, i, k, c); }
    Recolour(v.ch, v.base, v.end, v.sz, v.psz, c, Binned(i));
    assert BinHolds(v.ch, v.bins, i);
    var p := Node(Bin(i), v.bins[i], k - 1);
    assert p == Bin(i) < 0 || p in v.bins[i];
    InsertedStored(v, i, k, c);
    hide Sound, Rings, Sorted, Shelved, StoredOK;
    FastFrame(v.ch, v'.ch, v.fast, v.fd, v'.fd, v.heads);
  }

  lemma SortedQueue(ch: Chunks, bins: seq<List>, k: int, c: int)
    requires Sorted(ch, bins) && |bins| == NBINS && 0 <= k <= |bins[1]| && c in ch
    ensures Sorted(Mark(ch, c, Binned(1)), bins[1 := InsertAt(bins[1], k, c)])
  {
    hide BinIndex;
    var ch', bins' := Mark(ch, c, Binned(1)), bins[1 := InsertAt(bins[1], k, c)];
    forall j {:trigger SortedBin(ch', bins', j)} | 2 <= j < |bins'| ensures SortedBin(ch', bins', j) {
      assert SortedBin(ch, bins, j);
    }
  }

  lemma MarkedStored(v: View, c: int, st: Status)
    requires Core(v) && c in v.ch && (v.ch[c].st.Live? && !st.Live? ==> Bare(v.stored, c))
    ensures StoredOK(v.(ch := Mark(v.ch, c, st)))
  {
    var w := v.(ch := Mark(v.ch, c, st));
    hide Sound, Rings, Chains, Sorted, Shelved, FastShelved, Word, Granule;
    forall a {:trigger StoredAt(w, a)} | a in w.stored ensures StoredAt(w, a) {
      assert StoredAt(v, a);
      StoredPlace(v, a);
    }
  }

  /** A chunk changes its status without the tags or the lists noticing. */
  lemma MarkedCore(v: View, c: int, st: Status)
    requires Core(v) && c in v.ch && SameClass(st, v.ch[c].st)
    requires !v.ch[c].st.Binned? && !v.ch[c].st.Fast? && !st.Binned? && !st.Fast?
    requires v.ch[c].st.Live? && !st.Live? ==> Bare(v.stored, c)
    ensures Core(v.(ch := Mark(v.ch, c, st)))
    ensures LiveMap(Mark(v.ch, c, st)) == if st.Live? then LiveMap(v.ch)[c := Chunk(v.ch[c].size, st)]
            else LiveMap(v.ch) - {c}
  {
    Recolour(v.ch, v.base, v.end, v.sz, v.psz, c, st);
    MarkedStored(v, c, st);
    hide StoredOK;
    ListsFrame(v, Mark(v.ch, c, st));
  }

  /** A loose chunk is taken into use. */
  function Woken(v: View, c: int, st: Status): View
    requires c in v.ch && Next(v.ch, c) in v.ch
  {
    var n := Next(v.ch, c);
    v.(ch := Mark(v.ch, c, st), sz := v.sz[n := v.ch[n].size + 1])
  }

  lemma WokenStored(v: View, c: int, st: Status)
    requires Core(v) && c in v.ch && v.ch[c].st.Loose? && (st.Live? || st.Held?) && Next(v.ch, c) in v.ch
    ensures StoredOK(Woken(v, c, st))
  {
    var w := Woken(v, c, st);
    hide Sound, Rings, Chains, Sorted, Shelved, FastShelved, Word, Granule;
    forall a {:trigger StoredAt(w, a)} | a in w.stored ensures StoredAt(w, a) {
      assert StoredAt(v, a);
      StoredPlace(v, a);
    }
  }

  lemma WokenCore(v: View, c: int, st: Status)
    requires Core(v) && c in v.ch && v.ch[c].st.Loose? && (st.Live? || st.Held?)
    ensures Next(v.ch, c) in v.ch && Core(Woken(v, c, st))
    ensures LiveMap(Woken(v, c, st).ch) == if st.Live? then LiveMap(v.ch)[c := Chunk(v.ch[c].size, st)]
            else LiveMap(v.ch)
  {
    Wake(v.ch, v.base, v.end, v.sz, v.psz, c, st);
    WokenStored(v, c, st);
    hide StoredOK;
    ListsFrame(v, Mark(v.ch, c, st));
  }

  /** A held chunk between used chunks is tagged free. */
  function Slept(v: View, c: int): View
    requires c in v.ch && Next(v.ch, c) in v.ch
  {
    var n := Next(v.ch, c);
    v.(ch := Mark(v.ch, c, Loose), sz := v.sz[n := v.ch[n].size], psz := v.psz[n := v.ch[c].size])
  }

  lemma SleptStored(v: View, c: int)
    requires Core(v) && c in v.ch && v.ch[c].st.Held? && Next(v.ch, c) in v.ch
    ensures StoredOK(Slept(v, c))
  {
    var w := Slept(v, c);
    assert Placed(v.ch, v.base, v.end, c);
    hide Sound, Rings, Chains, Sorted, Shelved, FastShelved, Word, Granule;
    forall a {:trigger StoredAt(w, a)} | a in w.stored ensures StoredAt(w, a) {
      assert StoredAt(v, a);
      StoredPlace(v, a);
      assert Clear(v.ch, c, v.stored[a].block);
    }
  }

  lemma SleptCore(v: View, c: int)
    requires Core(v) && c in v.ch && v.ch[c].st.Held? && FrontUsed(v.ch, v.sz, c) && Next(v.ch, c) in v.ch
    requires !Idle(v.ch[Next(v.ch, c)]) && !v.ch[Next(v.ch, c)].st.Top?
    ensures Core(Slept(v, c)) && LiveMap(Slept(v, c).ch) == LiveMap(v.ch)
  {
    Sleep(v.ch, v.base, v.end, v.sz, v.psz, c);
    SleptStored(v, c);
    hide StoredOK;
    ListsFrame(v, Mark(v.ch, c, Loose));
  }

  predicate Unlisted(k: Chunk) {
    !k.st.Binned? && !k.st.Fast?
  }

  /** Nothing stored is lost: the second chunk holds nothing, and the first one nothing or it stays in use. */
  ghost predicate Mergeable(v: View, c: int, st: Status)
    requires c in v.ch
  {
    Bare(v.stored, Next(v.ch, c)) && (st.Live? || Bare(v.stored, c))
  }

  /** Two neighbours that are in no list become one. */
  function Merged(v: View, c: int, st: Status): View
    requires c in v.ch && Next(v.ch, c) in v.ch
  {
    var n := Next(v.ch, c);
    var size := v.ch[c].size + v.ch[n].size;
    v.(ch := Join(v.ch, c, st), sz := v.sz[c := Rd(v.sz, c) - v.ch[c].size + size],
       psz := if Idle(v.ch[n]) then v.psz[c + size := size] else v.psz)
  }

  lemma MergedStored(v: View, c: int, st: Status)
    requires Core(v) && c in v.ch && Next(v.ch, c) in v.ch && Mergeable(v, c, st)
    ensures StoredOK(Merged(v, c, st))
  {
    var w := Merged(v, c, st);
    assert Placed(v.ch, v.base, v.end, c) && Placed(v.ch, v.base, v.end, Next(v.ch, c));
    hide Sound, Rings, Chains, Sorted, Shelved, FastShelved, Word, Granule;
    forall a {:trigger StoredAt(w, a)} | a in w.stored ensures StoredAt(w, a) {
      assert StoredAt(v, a);
      StoredPlace(v, a);
      assert Clear(v.ch, Next(v.ch, c), v.stored[a].block);
    }
  }

  lemma MergedCore(v: View, c: int, st: Status)
    requires Core(v) && c in v.ch && Next(v.ch, c) in v.ch
    requires Unlisted(v.ch[c]) && Unlisted(v.ch[Next(v.ch, c)]) && !st.Binned? && !st.Fast?
    requires SameClass(st, v.ch[Next(v.ch, c)].st) && (FrontUsed(v.ch, v.sz, c) || InUse(st))
    requires Mergeable(v, c, st)
    ensures Core(Merged(v, c, st))
    ensures LiveMap(Merged(v, c, st).ch) ==
            if st.Live? then (LiveMap(v.ch) - {Next(v.ch, c)})[c := Merged(v, c, st).ch[c]]
                else LiveMap(v.ch) - {c, Next(v.ch, c)}
  {
    assert Placed(v.ch, v.base, v.end, c);
    Merge(v.ch, v.base, v.end, v.sz, v.psz, c, st);
    MergedStored(v, c, st);
    hide Sound, StoredOK;
    ListsFrame(v, Join(v.ch, c, st));
  }

  /** Nothing stored is lost: the chunk holds nothing, or only words within its first k bytes. */
  ghost predicate Carvable(v: View, c: int, k: int, st: Status) {
    Bare(v.stored, c) || (st.Live? && Within(v.stored, c, k))
  }

  /** A chunk in no list is split; its first part is in use. */
  function Carved(v: View, c: int, k: int, st: Status, rest: Status): View
    requires c in v.ch
  {
    var size := v.ch[c].size - k;
    v.(ch := Cut(v.ch, c, k, st, rest),
       sz := v.sz[c := Rd(v.sz, c) - v.ch[c].size + k][c + k := size + 1],
       psz := if Idle(v.ch[c]) then v.psz[c + k + size := size] else v.psz)
  }

  lemma CarvedStored(v: View, c: int, k: int, st: Status, rest: Status)
    requires Core(v) && c in v.ch && MINSIZE <= k <= v.ch[c].size - MINSIZE && Carvable(v, c, k, st)
    ensures StoredOK(Carved(v, c, k, st, rest))
  {
    var w := Carved(v, c, k, st, rest);
    hide Sound, Rings, Chains, Sorted, Shelved, FastShelved, Word, Granule;
    forall a {:trigger StoredAt(w, a)} | a in w.stored ensures StoredAt(w, a) {
      assert StoredAt(v, a);
      StoredPlace(v, a);
      assert Clear(v.ch, c, v.stored[a].block);
    }
  }

  lemma CarvedCore(v: View, c: int, k: int, st: Status, rest: Status)
    requires Core(v) && c in v.ch && Unlisted(v.ch[c])
    requires k >= MINSIZE && Granule(k) && v.ch[c].size - k >= MINSIZE
    requires (st.Live? || st.Held?) && SameClass(rest, v.ch[c].st) && !rest.Binned? && !rest.Fast?
    requires Carvable(v, c, k, st)
    ensures Core(Carved(v, c, k, st, rest)) && c + k !in v.ch
    ensures LiveMap(Carved(v, c, k, st, rest).ch) ==
            var live := if st.Live? then LiveMap(v.ch)[c := Chunk(k, st)] else LiveMap(v.ch) - {c};
            if rest.Live? then live[c + k := Chunk(v.ch[c].size - k, rest)] else live
  {
    hide Granule, StoredOK, Rings, Chains, Sorted, Shelved, FastShelved;
    CarvedStored(v, c, k, st, rest);
    Split(v.ch, v.base, v.end, v.sz, v.psz, c, k, st, rest);
    hide Sound;
    ListsFrame(v, Cut(v.ch, c, k, st, rest));
  }

  /** `free` on a small chunk. */
  function FastPushed(v: View, i: int, c: int): View
    requires 0 <= i < |v.fast| == |v.heads| && c in v.ch
  {
    v.(ch := Mark(v.ch, c, Fast), fast := v.fast[i := [c] + v.fast[i]],
       fd := v.fd[c := v.heads[i]], heads := v.heads[i := c])
  }

  lemma FastPushedStored(v: View, i: int, c: int)
    requires Core(v) && 0 <= i < |v.fast| == |v.heads| && c in v.ch && Bare(v.stored, c)
    ensures StoredOK(FastPushed(v, i, c))
  {
    var w := FastPushed(v, i, c);
    hide Sound, Rings, Chains, Sorted, Shelved, FastShelved, Word, Granule;
    forall a {:trigger StoredAt(w, a)} | a in w.stored ensures StoredAt(w, a) {
      assert StoredAt(v, a);
      StoredPlace(v, a);
    }
  }

  lemma FastPushedCore(v: View, i: int, c: int)
    requires Core(v) && 0 <= i < NFASTBINS && c in v.ch && (v.ch[c].st.Live? || v.ch[c].st.Held?)
    requires FastIndex(v.ch[c].size) == i && Bare(v.stored, c)
    ensures |v.fast| == |v.heads| == NFASTBINS
    ensures Core(FastPushed(v, i, c)) && LiveMap(FastPushed(v, i, c).ch) == LiveMap(v.ch) - {c}
  {
    hide FastIndex;
    var v' := FastPushed(v, i, c);
    FastPush(v.ch, v.fast, v.fd, v.heads, i, c);
    Recolour(v.ch, v.base, v.end, v.sz, v.psz, c, Fast);
    FastPushedStored(v, i, c);
    hide Sound, StoredOK;
    RingsFrame(v.ch, v.bins, v.fd, v.bk, v'.fd, v.bk);
    ShelvesFrame(v.ch, v'.ch, v.bins);
  }

  /** The first chunk of fastbin i leaves it, still tagged in use. */
  function FastPopped(v: View, i: int, st: Status): View
    requires 0 <= i < |v.fast| == |v.heads| && v.fast[i] != [] && v.heads[i] in v.ch
  {
    v.(ch := Mark(v.ch, v.heads[i], st), fast := v.fast[i := v.fast[i][1..]],
       heads := v.heads[i := Rd(v.fd, v.heads[i])])
  }

  lemma FastPoppedStored(v: View, i: int, st: Status)
    requires Core(v) && 0 <= i < |v.fast| == |v.heads| && v.fast[i] != [] && v.heads[i] in v.ch
             && v.ch[v.heads[i]].st.Fast?
    ensures StoredOK(FastPopped(v, i, st))
  {
    var w := FastPopped(v, i, st);
    hide Sound, Rings, Chains, Sorted, Shelved, FastShelved, Word, Granule;
    forall a {:trigger StoredAt(w, a)} | a in w.stored ensures StoredAt(w, a) {
      assert StoredAt(v, a);
      StoredPlace(v, a);
    }
  }

  lemma FastPoppedCore(v: View, i: int, st: Status)
    requires Core(v) && 0 <= i < NFASTBINS && |v.fast| == |v.heads| && v.fast[i] != [] && (st.Live? || st.Held?)
    ensures v.heads[i] in v.ch && v.ch[v.heads[i]].st.Fast? && FastIndex(v.ch[v.heads[i]].size) == i
    ensures v.heads[i] == v.fast[i][0]
    ensures Core(FastPopped(v, i, st))
    ensures LiveMap(FastPopped(v, i, st).ch) ==
            if st.Live? then LiveMap(v.ch)[v.heads[i] := Chunk(v.ch[v.heads[i]].size, st)] else LiveMap(v.ch)
  {
    hide FastIndex;
    FastPop(v.ch, v.fast, v.fd, v.heads, i, st);
    Recolour(v.ch, v.base, v.end, v.sz, v.psz, v.heads[i], st);
    FastPoppedStored(v, i, st);
    hide Sound, StoredOK;
    ShelvesFrame(v.ch, FastPopped(v, i, st).ch, v.bins);
  }

  /** The end of the heap moves. */
  function TopResized(v: View, t: int, size: int): View {
    v.(ch := v.ch[t := Chunk(size, Top)], end := t + size, sz := v.sz[t := size + 1])
  }

  lemma TopResizedStored(v: View, t: int, size: int)
    requires Core(v) && t in v.ch && v.ch[t].st.Top?
    ensures StoredOK(TopResized(v, t, size))
  {
    var w := TopResized(v, t, size);
    hide Sound, Rings, Chains, Sorted, Shelved, FastShelved, Word, Granule;
    forall a {:trigger StoredAt(w, a)} | a in w.stored ensures StoredAt(w, a) {
      assert StoredAt(v, a);
      StoredPlace(v, a);
    }
  }

  lemma TopResizedCore(v: View, t: int, size: int)
    requires Core(v) && t in v.ch && v.ch[t].st.Top? && size >= MINSIZE && Word(size)
    ensures Core(TopResized(v, t, size)) && LiveMap(TopResized(v, t, size).ch) == LiveMap(v.ch)
  {
    ResizeTop(v.ch, v.base, v.end, v.sz, v.psz, t, size);
    TopResizedStored(v, t, size);
    hide Sound, StoredOK;
    ListsFrame(v, v.ch[t := Chunk(size, Top)]);
  }

  /** Header words that carry no meaning, and are no user's, may differ. */
  lemma RetaggedCore(v: View, sz': Words, psz': Words)
    requires Core(v)
    requires forall c :: c in v.ch ==> Rd(sz', c) == Rd(v.sz, c)
    requires forall c :: c in v.ch && !FrontUsed(v.ch, v.sz, c) ==> Rd(psz', c) == Rd(v.psz, c)
    requires forall a {:trigger v.stored[a]} :: a in v.stored ==>
               Rd(sz', a - 8) == Rd(v.sz, a - 8) && Rd(psz', a) == Rd(v.psz, a)
    ensures Core(v.(sz := sz', psz := psz'))
  {
    TagsFrame(v.ch, v.base, v.end, v.sz, v.psz, sz', psz');
    hide Sound, Rings, Chains, Sorted, Shelved, FastShelved;
    var w := v.(sz := sz', psz := psz');
    forall a {:trigger StoredAt(w, a)} | a in w.stored ensures StoredAt(w, a) {
      assert StoredAt(v, a);
    }
  }

  /** A chunk in no list takes bytes from top. */
  function Borrowed(v: View, c: int, k: int, st: Status): View
    requires c in v.ch && Next(v.ch, c) in v.ch
  {
    var rest := v.ch[c].size + v.ch[Next(v.ch, c)].size - k;
    v.(ch := Borrow(v.ch, c, k, st), sz := v.sz[c := Rd(v.sz, c) - v.ch[c].size + k][c + k := rest + 1])
  }

  lemma BorrowedStored(v: View, c: int, k: int, st: Status)
    requires Core(v) && c in v.ch && Next(v.ch, c) in v.ch && v.ch[Next(v.ch, c)].st.Top? && st.Live?
             && k >= v.ch[c].size
    ensures StoredOK(Borrowed(v, c, k, st))
  {
    var w := Borrowed(v, c, k, st);
    assert Placed(v.ch, v.base, v.end, Next(v.ch, c));
    forall b | b in v.ch ensures Next(v.ch, b) <= v.end { assert Placed(v.ch, v.base, v.end, b); }
    hide Sound, Rings, Chains, Sorted, Shelved, FastShelved, Word, Granule;
    forall a {:trigger StoredAt(w, a)} | a in w.stored ensures StoredAt(w, a) {
      assert StoredAt(v, a);
      StoredPlace(v, a);
      var b, t := v.stored[a].block, Next(v.ch, c);
      assert Clear(v.ch, c, b) && Clear(v.ch, t, b);
    }
  }

  lemma BorrowedCore(v: View, c: int, k: int, st: Status)
    requires Core(v) && c in v.ch && Next(v.ch, c) in v.ch && v.ch[Next(v.ch, c)].st.Top?
    requires v.ch[c].st.Live? && st.Live?
    requires k >= v.ch[c].size && Granule(k) && v.ch[c].size + v.ch[Next(v.ch, c)].size - k >= MINSIZE
    ensures Core(Borrowed(v, c, k, st)) && LiveMap(Borrowed(v, c, k, st).ch) == LiveMap(v.ch)[c := Chunk(k, st)]
  {
    hide Granule, Word, StoredOK, Rings, Chains, Sorted, Shelved, FastShelved;
    BorrowedStored(v, c, k, st);
    var t := Next(v.ch, c);
    assert Placed(v.ch, v.base, v.end, c) && Placed(v.ch, v.base, v.end, t);
    assert c + k in v.ch ==>
        Placed(v.ch, v.base, v.end, c + k) && Apart(v.ch, t, c + k) && Apart(v.ch, c + k, t) && Apart(v.ch, c, c + k);
    BorrowTop(v.ch, v.base, v.end, v.sz, v.psz, c, k, st);
    hide Sound;
    ListsFrame(v, Borrow(v.ch, c, k, st));
  }
}
