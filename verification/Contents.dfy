/** The contents of users' blocks.  A word of a block is one word of memory, although it may have been, or may
    become, any of the four fields of a chunk header: writing it writes all four. */
module Contents {
  import opened Sizes
  import opened Layout
  import opened Shelves
  import opened HeapView

  // ------------------------------------------------------------ writing a word

  /** The word x is written at address a, in the block at c. */
  function Poked(v: View, c: int, a: int, x: int): View {
    v.(psz := v.psz[a := x], sz := v.sz[a - 8 := x], fd := v.fd[a - 16 := x], bk := v.bk[a - 24 := x],
       stored := v.stored[a := Cell(c, x)])
  }

  /** The address a, seen as any of the four fields, is no field the allocator reads. */
  predicate Unread(v: View, a: int) {
    && a - 8 !in v.ch
    && (a in v.ch ==> FrontUsed(v.ch, v.sz, a))
    && (a - 16 in v.ch ==> v.ch[a - 16].st.Live?) && a - 16 > 0
    && (a - 24 in v.ch ==> v.ch[a - 24].st.Live?) && a - 24 > 0
  }

  lemma InsideUnread(v: View, c: int, a: int)
    requires Core(v) && c in v.ch && v.ch[c].st.Live? && Inside(v.ch, c, a)
    ensures Unread(v, a)
  {
    hide ChunkSize, PrevInuse, Core, Granule, Word;
    HeaderFacts(v, c);
    GranulePositive(c);
    NextFacts(v, c);
    ApartFrom(v, c, a - 8);
    ApartFrom(v, c, a - 16);
    ApartFrom(v, c, a - 24);
    ApartFrom(v, c, a);
  }

  /** No chunk starts within another one. */
  lemma ApartFrom(v: View, c: int, d: int)
    requires Core(v) && c in v.ch
    ensures d in v.ch ==> d <= c - MINSIZE || d == c || d >= Next(v.ch, c)
  {
    hide Granule, Word;
    if d in v.ch {
      assert Apart(v.ch, c, d) && Apart(v.ch, d, c);
      assert Placed(v.ch, v.base, v.end, d);
    }
  }

  /** Links matter only in the bin headers and in the chunks of a list. */
  lemma LinksFrame(v: View, fd': Words, bk': Words)
    requires Core(v)
    requires forall c :: c < 0 || (c in v.ch && (v.ch[c].st.Binned? || v.ch[c].st.Fast?)) ==>
               Rd(fd', c) == Rd(v.fd, c) && Rd(bk', c) == Rd(v.bk, c)
    ensures Rings(fd', bk', v.bins) && Chains(fd', v.heads, v.fast)
  {
    hide FastIndex, Sound, Sorted, Rd, StoredOK;
    forall i {:trigger RingAt(fd', bk', v.bins, i)} | 1 <= i < |v.bins| ensures RingAt(fd', bk', v.bins, i) {
      assert RingAt(v.fd, v.bk, v.bins, i) && BinHolds(v.ch, v.bins, i);
      var h, s := Bin(i), v.bins[i];
      forall k {:trigger Arc(fd', bk', h, s, k)} | -1 <= k < |s| ensures Arc(fd', bk', h, s, k) {
        assert Arc(v.fd, v.bk, h, s, k);
        assert 0 <= k ==> s[k] in s;
        assert k + 1 < |s| ==> s[k + 1] in s;
      }
    }
    forall i {:trigger ChainAt(fd', v.heads, v.fast, i)} | 0 <= i < |v.fast| ensures ChainAt(fd', v.heads, v.fast, i) {
      assert ChainAt(v.fd, v.heads, v.fast, i) && FastHolds(v.ch, v.fast, i);
      var s := v.fast[i];
      forall k {:trigger s[k]} | 0 <= k < |s| ensures Rd(fd', s[k]) == Rd(v.fd, s[k]) {
        assert s[k] in s;
      }
    }
  }

  /** Whatever is written into a block, the allocator does not notice, and no other word of a user changes. */
  lemma PokedCore(v: View, c: int, a: int, x: int)
    requires Core(v) && c in v.ch && v.ch[c].st.Live? && Inside(v.ch, c, a)
    ensures Core(Poked(v, c, a, x))
  {
    var w := Poked(v, c, a, x);
    InsideUnread(v, c, a);
    LinksFrame(v, w.fd, w.bk);
    hide Rings, Chains, Sound, Shelved, FastShelved, Sorted;
    TagsFrame(v.ch, v.base, v.end, v.sz, v.psz, w.sz, w.psz);
    forall b {:trigger StoredAt(w, b)} | b in w.stored ensures StoredAt(w, b) {
      assert b != a ==> StoredAt(v, b);
    }
  }

  // ------------------------------------------------------------ forgetting words

  /** The words of all blocks but p. */
  function Forgotten(stored: Cells, p: int): Cells {
    map a | a in stored && stored[a].block != p :: stored[a]
  }

  /** The words that still fit if the block p has k bytes. */
  function Trimmed(stored: Cells, p: int, k: int): Cells {
    map a | a in stored && (stored[a].block == p ==> a <= p + k) :: stored[a]
  }

  lemma FewerCore(v: View, stored': Cells)
    requires Core(v) && forall a {:trigger stored'[a]} :: a in stored' ==> a in v.stored && stored'[a] == v.stored[a]
    ensures Core(v.(stored := stored'))
  {
    hide Rings, Chains, Sound, Shelved, FastShelved, Sorted;
    var w := v.(stored := stored');
    forall a {:trigger StoredAt(w, a)} | a in w.stored ensures StoredAt(w, a) {
      assert w.stored[a] == v.stored[a];
      assert StoredAt(v, a);
    }
  }

  lemma ForgottenCore(v: View, p: int)
    requires Core(v)
    ensures Core(v.(stored := Forgotten(v.stored, p))) && Bare(Forgotten(v.stored, p), p)
  {
    hide Core;
    FewerCore(v, Forgotten(v.stored, p));
  }

  lemma TrimmedCore(v: View, p: int, k: int)
    requires Core(v)
    ensures Core(v.(stored := Trimmed(v.stored, p, k))) && Within(Trimmed(v.stored, p, k), p, k)
  {
    hide Core;
    FewerCore(v, Trimmed(v.stored, p, k));
  }

  /** A block that is new holds no stored words: they all lie in blocks that were there before. */
  lemma NewBlockBare(v: View, q: int)
    requires Core(v) && q !in LiveMap(v.ch)
    ensures Bare(v.stored, q)
  {
    hide Core;
    NotLiveBare(v, q);
  }

  lemma ValidBare(v: View, q: int)
    requires v.stored == map[] || (Core(v) && q !in LiveMap(v.ch))
    ensures Bare(v.stored, q)
  {
    hide Core;
    if v.stored != map[] {
      NewBlockBare(v, q);
    }
  }

  // ------------------------------------------------------------ copying words

  /** The block q, and in it n words copied from s to d. */
  function CopiedWords(v: View, q: int, s: int, d: int, n: nat): View {
    if n == 0 then v
    else Poked(CopiedWords(v, q, s, d, n - 1), q, d + 8 * (n - 1), Rd(v.psz, s + 8 * (n - 1)))
  }

  lemma CopiedNone(v: View, q: int, s: int, d: int)
    ensures CopiedWords(v, q, s, d, 0) == v
  {
  }

  lemma UserWord(q: int)
    requires Granule(q)
    ensures Word(q + 16)
  {
    assert q + 16 == 8 * (2 * (q / 16) + 2);
  }

  lemma WordAt(d: int, i: int)
    requires Word(d)
    ensures Word(d + 8 * i)
  {
    assert d + 8 * i == 8 * (d / 8 + i);
  }

  lemma {:induction false} CopiedAt(v: View, q: int, s: int, d: int, n: nat, i: int)
    requires 0 <= i < n
    ensures d + 8 * i in CopiedWords(v, q, s, d, n).stored
    ensures CopiedWords(v, q, s, d, n).stored[d + 8 * i] == Cell(q, Rd(v.psz, s + 8 * i))
  {
    if i < n - 1 {
      CopiedAt(v, q, s, d, n - 1, i);
    }
  }

  /** Nothing but the words copied to has changed. */
  lemma {:induction false} CopiedElse(v: View, q: int, s: int, d: int, n: nat, a: int)
    requires a < d || a >= d + 8 * n
    ensures var w := CopiedWords(v, q, s, d, n);
            && Rd(w.psz, a) == Rd(v.psz, a) && (a in w.stored <==> a in v.stored)
            && (a in v.stored ==> w.stored[a] == v.stored[a])
  {
    if n > 0 {
      CopiedElse(v, q, s, d, n - 1, a);
    }
  }

  // ------------------------------------------------------------ what `realloc` keeps

  /** The words of the block p that fit into newsize bytes are now those of the block q, at the same place in
      it; the words of all other blocks are as before. */
  ghost predicate Kept(stored: Cells, stored': Cells, p: int, q: int, newsize: int) {
    && (forall a {:trigger stored[a]} :: a in stored && stored[a].block == p && a <= p + newsize ==>
          q - p + a in stored' && stored'[q - p + a] == Cell(q, stored[a].word))
    && (forall a {:trigger stored[a]} ::
        a in stored && stored[a].block != p ==> a in stored' && stored'[a] == stored[a])
    && (forall a {:trigger stored'[a]} ::
        a in stored' && stored'[a].block != q ==> a in stored && stored'[a] == stored[a] && stored[a].block != p)
  }

  lemma KeptSame(v: View, p: int, newsize: int)
    requires Core(v)
    ensures Kept(v.stored, v.stored, p, p, newsize)
  {
  }

  lemma KeptTrimmed(stored: Cells, p: int, k: int)
    ensures Kept(stored, Trimmed(stored, p, k), p, p, k)
  {
  }

  /** All words of the block p, which has `size` bytes, have been copied to the start of the new block q,
      and those of p are forgotten. */
  lemma KeptCopy(v: View, p: int, size: int, q: int, newsize: int, n: nat)
    requires Core(v) && p in v.ch && q in v.ch && v.ch[p].st.Live? && v.ch[q].st.Live? && p != q && Bare(v.stored, q)
    requires v.ch[p].size == size && v.ch[q].size == newsize && 8 * n == size - 8 && size <= newsize
    ensures Kept(v.stored, Forgotten(CopiedWords(v, q, p + 16, q + 16, n).stored, p), p, q, newsize)
  {
    hide Core, CopiedWords;
    HeaderFacts(v, p);
    var w := CopiedWords(v, q, p + 16, q + 16, n);
    var stored' := Forgotten(w.stored, p);
    forall a {:trigger v.stored[a]} | a in v.stored
      ensures if v.stored[a].block == p then q - p + a in stored' && stored'[q - p + a] == Cell(q, v.stored[a].word)
              else a in stored' && stored'[a] == v.stored[a]
    {
      StoredFacts(v, a);
      if v.stored[a].block == p {
        var i := WordIndex(p, a);
        CopiedAt(v, q, p + 16, q + 16, n, i);
      } else {
        ApartFrom(v, q, v.stored[a].block);
        ApartFrom(v, v.stored[a].block, q);
        CopiedElse(v, q, p + 16, q + 16, n, a);
      }
    }
    forall a {:trigger stored'[a]} | a in stored' && stored'[a].block != q
      ensures a in v.stored && stored'[a] == v.stored[a] && v.stored[a].block != p
    {
      CopiedWhere(v, q, p + 16, q + 16, n, a);
    }
  }

  lemma StoredFacts(v: View, a: int)
    requires Core(v) && a in v.stored
    ensures var c := v.stored[a].block;
              c in v.ch && v.ch[c].st.Live? && Inside(v.ch, c, a) && Rd(v.psz, a) == v.stored[a].word
  {
    assert StoredAt(v, a);
  }

  lemma WordIndex(p: int, a: int) returns (i: int)
    requires Granule(p) && Word(a) && a >= p + 16
    ensures i >= 0 && a == p + 16 + 8 * i
  {
    i := a / 8 - p / 8 - 2;
  }

  /** A stored word is one that was copied or one that was there before. */
  lemma {:induction false} CopiedWhere(v: View, q: int, s: int, d: int, n: nat, a: int)
    ensures var w := CopiedWords(v, q, s, d, n);
            a in w.stored && w.stored[a].block != q ==> a in v.stored && w.stored[a] == v.stored[a]
  {
    if n > 0 {
      CopiedWhere(v, q, s, d, n - 1, a);
    }
  }
}
