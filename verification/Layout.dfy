/** The heap as a tiling of chunks with boundary tags.

    `Chunks` is the abstract heap: the start address of every chunk with its size and status.
    `sz` and `psz` are the `size` and `prev_size` words of the chunk headers.  The in-use bit of
    a chunk lives in the header of the chunk behind it, and a chunk's size is repeated in the
    `prev_size` word of the chunk behind it only while the chunk is free. */
module Layout {
  import opened Sizes

  /** What a chunk is used for.  Two statuses occur only inside an operation: `Loose` is a chunk
      tagged free that is in no list, `Held` a chunk tagged in use that belongs to no user. */
  datatype Status = Live(req: nat) | Fast | Held | Binned(bin: nat) | Loose | Top

  datatype Chunk = Chunk(size: int, st: Status)

  type Chunks = map<int, Chunk>

  type Words = map<int, int>

  /** Reading a word; words never written read as 0. */
  function Rd(m: Words, a: int): int {
    if a in m then m[a] else 0
  }

  /** `prev_inuse`: the low bit of a size word. */
  predicate PrevInuse(w: int) {
    w % 2 == 1
  }

  /** `chunksize`: a size word without its two flag bits. */
  function ChunkSize(w: int): int {
    w - w % 4
  }

  /** Marked free in the tags. */
  predicate Idle(k: Chunk) {
    k.st.Binned? || k.st.Loose?
  }

  /** Tagged as used. */
  predicate InUse(st: Status) {
    st.Live? || st.Fast? || st.Held?
  }

  function Next(ch: Chunks, c: int): int
    requires c in ch
  {
    c + ch[c].size
  }

  /** Chunk addresses and sizes are granules; the size of top is at least a whole number of words. */
  predicate Granule(x: int) {
    x % 16 == 0
  }

  predicate Word(x: int) {
    x % 8 == 0
  }

  lemma GranuleSum(a: int, b: int)
    requires Granule(b)
    ensures Word(b)
    ensures Word(a) ==> Word(a + b) && Word(a - b)
    ensures Granule(a) ==> Granule(a + b) && Granule(a - b)
  {
    if Granule(a) {
      assert a + b == 16 * (a / 16 + b / 16) && a - b == 16 * (a / 16 - b / 16);
    }
    if Word(a) {
      assert a + b == 8 * (a / 8 + 2 * (b / 16)) && a - b == 8 * (a / 8 - 2 * (b / 16));
    }
    assert b == 8 * (2 * (b / 16));
  }

  /** The header of c says that the chunk in front is in use. */
  predicate FrontUsed(ch: Chunks, sz: Words, c: int)
    requires c in ch
  {
    Rd(sz, c) == ch[c].size + 1
  }

  // ------------------------------------------------------------ invariants

  predicate Placed(ch: Chunks, base: int, end: int, c: int)
    requires c in ch
  {
    var k := ch[c];
    && base <= c && Granule(c)
    && k.size >= MINSIZE && Word(k.size) && (k.st.Top? || Granule(k.size))
    && Next(ch, c) <= end
    && (k.st.Top? <==> Next(ch, c) == end)
    && (!k.st.Top? ==> Next(ch, c) in ch)
  }

  predicate Apart(ch: Chunks, c: int, d: int)
    requires c in ch && d in ch
  {
    c < d ==> Next(ch, c) <= d
  }

  /** The chunks lie in [base, end), do not overlap, and each is followed by another one,
      except for the top chunk, which ends the heap. */
  ghost predicate Tiled(ch: Chunks, base: int, end: int) {
    && base <= end && (base < end ==> base in ch)
    && (forall c {:trigger Placed(ch, base, end, c)} :: c in ch ==> Placed(ch, base, end, c))
    && (forall c, d {:trigger Apart(ch, c, d)} :: c in ch && d in ch ==> Apart(ch, c, d))
  }

  /** The header of c holds its size; if its low bit is clear, `prev_size` leads to the free
      chunk in front of it. */
  predicate HeaderOK(ch: Chunks, sz: Words, psz: Words, c: int)
    requires c in ch
  {
    && (Rd(sz, c) == ch[c].size || Rd(sz, c) == ch[c].size + 1)
    && (Rd(sz, c) == ch[c].size ==>
          var q := c - Rd(psz, c);
          q in ch && Idle(ch[q]) && ch[q].size == Rd(psz, c))
  }

  /** The chunk behind c tells whether c is in use, and repeats its size if it is not. */
  predicate TailOK(ch: Chunks, sz: Words, psz: Words, c: int)
    requires c in ch
  {
    var n := Next(ch, c);
    !ch[c].st.Top? ==>
      && n in ch
      && (if Idle(ch[c]) then Rd(sz, n) == ch[n].size && Rd(psz, n) == ch[c].size
          else Rd(sz, n) == ch[n].size + 1)
  }

  /** A free chunk is followed by a chunk in use, never by another free chunk or by top. */
  predicate Bordered(ch: Chunks, c: int)
    requires c in ch
  {
    Idle(ch[c]) ==> Next(ch, c) in ch && !Idle(ch[Next(ch, c)]) && !ch[Next(ch, c)].st.Top?
  }

  ghost predicate Tagged(ch: Chunks, base: int, sz: Words, psz: Words) {
    && (base in ch ==> Rd(sz, base) == ch[base].size + 1)
    && (forall c {:trigger HeaderOK(ch, sz, psz, c)} :: c in ch ==> HeaderOK(ch, sz, psz, c))
    && (forall c {:trigger TailOK(ch, sz, psz, c)} :: c in ch ==> TailOK(ch, sz, psz, c))
  }

  ghost predicate Coalesced(ch: Chunks) {
    forall c {:trigger Bordered(ch, c)} :: c in ch ==> Bordered(ch, c)
  }

  ghost predicate Sound(ch: Chunks, base: int, end: int, sz: Words, psz: Words) {
    Tiled(ch, base, end) && Tagged(ch, base, sz, psz) && Coalesced(ch)
  }

  // ------------------------------------------------------------ elementary changes

  function Mark(ch: Chunks, c: int, st: Status): Chunks
    requires c in ch
  {
    ch[c := Chunk(ch[c].size, st)]
  }

  /** c absorbs the chunk behind it. */
  function Join(ch: Chunks, c: int, st: Status): Chunks
    requires c in ch && Next(ch, c) in ch
  {
    (ch - {Next(ch, c)})[c := Chunk(ch[c].size + ch[Next(ch, c)].size, st)]
  }

  /** c keeps its first k bytes, the rest becomes a chunk of its own. */
  function Cut(ch: Chunks, c: int, k: int, st: Status, rest: Status): Chunks
    requires c in ch
  {
    ch[c := Chunk(k, st)][c + k := Chunk(ch[c].size - k, rest)]
  }

  predicate SameClass(a: Status, b: Status) {
    && (a.Top? <==> b.Top?)
    && ((a.Binned? || a.Loose?) <==> (b.Binned? || b.Loose?))
  }

  lemma MarkTiled(ch: Chunks, base: int, end: int, c: int, st: Status)
    requires Tiled(ch, base, end) && c in ch && (st.Top? <==> ch[c].st.Top?)
    ensures Tiled(Mark(ch, c, st), base, end)
  {
    hide Granule, Word;
    var ch' := Mark(ch, c, st);
    forall d {:trigger Placed(ch', base, end, d)} | d in ch' ensures Placed(ch', base, end, d) {
      assert Placed(ch, base, end, d);
    }
    forall d, e {:trigger Apart(ch', d, e)} | d in ch' && e in ch' ensures Apart(ch', d, e) {
      assert Apart(ch, d, e);
    }
  }

  /** A change of status that the tags do not see. */
  lemma Recolour(ch: Chunks, base: int, end: int, sz: Words, psz: Words, c: int, st: Status)
    requires Sound(ch, base, end, sz, psz) && c in ch && SameClass(st, ch[c].st)
    ensures Sound(Mark(ch, c, st), base, end, sz, psz)
  {
    hide Granule, Word;
    var ch' := Mark(ch, c, st);
    MarkTiled(ch, base, end, c, st);
    forall d {:trigger HeaderOK(ch', sz, psz, d)} | d in ch' ensures HeaderOK(ch', sz, psz, d) {
      assert HeaderOK(ch, sz, psz, d);
    }
    forall d {:trigger TailOK(ch', sz, psz, d)} | d in ch' ensures TailOK(ch', sz, psz, d) {
      assert TailOK(ch, sz, psz, d);
    }
    forall d {:trigger Bordered(ch', d)} | d in ch' ensures Bordered(ch', d) {
      assert Bordered(ch, d);
    }
  }

  /** `set_inuse_bit_at_offset`: a free chunk is taken into use. */
  lemma Wake(ch: Chunks, base: int, end: int, sz: Words, psz: Words, c: int, st: Status)
    requires Sound(ch, base, end, sz, psz) && c in ch && Idle(ch[c]) && InUse(st)
    ensures Next(ch, c) in ch
    ensures var n := Next(ch, c);
            Sound(Mark(ch, c, st), base, end, sz[n := ch[n].size + 1], psz)
  {
    hide Granule, Word;
    var ch' := Mark(ch, c, st);
    assert Placed(ch, base, end, c);
    var n := Next(ch, c);
    var sz' := sz[n := ch[n].size + 1];
    MarkTiled(ch, base, end, c, st);
    forall d {:trigger HeaderOK(ch', sz', psz, d)} | d in ch' ensures HeaderOK(ch', sz', psz, d) {
      assert HeaderOK(ch, sz, psz, d);
      if d != n && Rd(sz, d) == ch[d].size {
        assert d - Rd(psz, d) != c;
      }
    }
    forall d {:trigger TailOK(ch', sz', psz, d)} | d in ch' ensures TailOK(ch', sz', psz, d) {
      assert TailOK(ch, sz, psz, d) && Placed(ch, base, end, d);
      assert Apart(ch, c, d) && Apart(ch, d, c);
    }
    forall d {:trigger Bordered(ch', d)} | d in ch' ensures Bordered(ch', d) {
      assert Bordered(ch, d);
    }
  }

  /** The chunk in front of c is in use when the low bit of c's header is set. */
  lemma FrontInUse(ch: Chunks, base: int, end: int, sz: Words, psz: Words, c: int, d: int)
    requires Sound(ch, base, end, sz, psz) && c in ch && d in ch
    requires Next(ch, d) == c && FrontUsed(ch, sz, c)
    ensures !Idle(ch[d])
  {
    assert TailOK(ch, sz, psz, d) && Placed(ch, base, end, c) && Placed(ch, base, end, d);
  }

  /** A chunk in use between chunks in use becomes free. */
  lemma Sleep(ch: Chunks, base: int, end: int, sz: Words, psz: Words, c: int)
    requires Sound(ch, base, end, sz, psz) && c in ch && InUse(ch[c].st)
    requires FrontUsed(ch, sz, c) && Next(ch, c) in ch
    requires !Idle(ch[Next(ch, c)]) && !ch[Next(ch, c)].st.Top?
    ensures var n := Next(ch, c);
            Sound(Mark(ch, c, Loose), base, end, sz[n := ch[n].size], psz[n := ch[c].size])
  {
    hide Granule, Word;
    var ch' := Mark(ch, c, Loose);
    var n := Next(ch, c);
    var sz' := sz[n := ch[n].size];
    var psz' := psz[n := ch[c].size];
    assert Placed(ch, base, end, c) && Placed(ch, base, end, n);
    MarkTiled(ch, base, end, c, Loose);
    forall d {:trigger HeaderOK(ch', sz', psz', d)} | d in ch' ensures HeaderOK(ch', sz', psz', d) {
      assert HeaderOK(ch, sz, psz, d);
    }
    forall d {:trigger TailOK(ch', sz', psz', d)} | d in ch' ensures TailOK(ch', sz', psz', d) {
      assert TailOK(ch, sz, psz, d) && Placed(ch, base, end, d);
      assert Apart(ch, c, d) && Apart(ch, d, c);
    }
    forall d {:trigger Bordered(ch', d)} | d in ch' ensures Bordered(ch', d) {
      assert Bordered(ch, d);
      if Next(ch, d) == c { FrontInUse(ch, base, end, sz, psz, c, d); }
    }
  }

  lemma JoinTiled(ch: Chunks, base: int, end: int, c: int, st: Status)
    requires Tiled(ch, base, end) && c in ch && Next(ch, c) in ch
    requires st.Top? <==> ch[Next(ch, c)].st.Top?
    ensures Tiled(Join(ch, c, st), base, end)
  {
    hide Granule, Word;
    var n := Next(ch, c);
    var ch' := Join(ch, c, st);
    assert Placed(ch, base, end, c) && Placed(ch, base, end, n);
    GranuleSum(ch[n].size, ch[c].size);
    forall d {:trigger Placed(ch', base, end, d)} | d in ch' ensures Placed(ch', base, end, d) {
      if d != c {
        assert Placed(ch, base, end, d) && Apart(ch, c, d) && Apart(ch, d, c);
      }
    }
    forall d, e {:trigger Apart(ch', d, e)} | d in ch' && e in ch' ensures Apart(ch', d, e) {
      if d == c {
        assert Apart(ch, c, e) && Apart(ch, n, e);
      } else {
        assert Apart(ch, d, e);
      }
    }
  }

  /** Two neighbours become one chunk with the use of the second. */
  lemma Merge(ch: Chunks, base: int, end: int, sz: Words, psz: Words, c: int, st: Status)
    requires Sound(ch, base, end, sz, psz) && c in ch && Next(ch, c) in ch
    requires SameClass(st, ch[Next(ch, c)].st)
    requires FrontUsed(ch, sz, c) || InUse(st)
    ensures var size := ch[c].size + ch[Next(ch, c)].size;
            Sound(Join(ch, c, st), base, end, sz[c := Rd(sz, c) - ch[c].size + size],
                  if Idle(ch[Next(ch, c)]) then psz[c + size := size] else psz)
  {
    hide Granule, Word;
    var n := Next(ch, c);
    var ch' := Join(ch, c, st);
    var size := ch[c].size + ch[n].size;
    var sz' := sz[c := Rd(sz, c) - ch[c].size + size];
    var psz' := if Idle(ch[n]) then psz[c + size := size] else psz;
    assert Placed(ch, base, end, c) && Placed(ch, base, end, n);
    JoinTiled(ch, base, end, c, st);
    assert HeaderOK(ch, sz, psz, c) && HeaderOK(ch, sz, psz, n);
    assert TailOK(ch, sz, psz, n) && Bordered(ch, n);
    forall d {:trigger HeaderOK(ch', sz', psz', d)} | d in ch' ensures HeaderOK(ch', sz', psz', d) {
      assert HeaderOK(ch, sz, psz, d) && Placed(ch, base, end, d);
      var q := d - Rd(psz, d);
      if Rd(sz, d) == ch[d].size && d != Next(ch, n) {
        assert q != n && q != c;
      }
    }
    forall d {:trigger TailOK(ch', sz', psz', d)} | d in ch' ensures TailOK(ch', sz', psz', d) {
      assert TailOK(ch, sz, psz, d) && Placed(ch, base, end, d);
      assert Apart(ch, c, d) && Apart(ch, d, c) && Apart(ch, d, n) && Apart(ch, n, d);
    }
    forall d {:trigger Bordered(ch', d)} | d in ch' ensures Bordered(ch', d) {
      assert Bordered(ch, d) && Placed(ch, base, end, d);
      assert Apart(ch, c, d) && Apart(ch, d, c) && Apart(ch, d, n) && Apart(ch, n, d);
      if Next(ch, d) == c && Idle(ch[d]) && FrontUsed(ch, sz, c) { FrontInUse(ch, base, end, sz, psz, c, d); }
    }
  }

  lemma CutTiled(ch: Chunks, base: int, end: int, c: int, k: int, st: Status, rest: Status)
    requires Tiled(ch, base, end) && c in ch
    requires k >= MINSIZE && Granule(k) && ch[c].size - k >= MINSIZE
    requires !st.Top? && (rest.Top? <==> ch[c].st.Top?)
    ensures Tiled(Cut(ch, c, k, st, rest), base, end) && c + k !in ch
  {
    hide Granule, Word;
    var r := c + k;
    var ch' := Cut(ch, c, k, st, rest);
    assert Placed(ch, base, end, c);
    assert r in ch ==> Apart(ch, c, r);
    GranuleSum(c, k);
    GranuleSum(ch[c].size, k);
    forall d {:trigger Placed(ch', base, end, d)} | d in ch' ensures Placed(ch', base, end, d) {
      if d in ch && d != c { assert Placed(ch, base, end, d); }
    }
    forall d, e {:trigger Apart(ch', d, e)} | d in ch' && e in ch' ensures Apart(ch', d, e) {
      if d in ch && e in ch {
        assert Apart(ch, d, e);
      } else if d in ch {
        assert Apart(ch, d, c) && Apart(ch, c, d);
      } else if e in ch {
        assert Apart(ch, c, e);
      }
    }
  }

  /** One chunk is split in two; the first part is in use. */
  lemma Split(ch: Chunks, base: int, end: int, sz: Words, psz: Words, c: int, k: int, st: Status, rest: Status)
    requires Sound(ch, base, end, sz, psz) && c in ch
    requires k >= MINSIZE && Granule(k) && ch[c].size - k >= MINSIZE
    requires InUse(st) && SameClass(rest, ch[c].st)
    ensures c + k !in ch
    ensures var size := ch[c].size - k;
            Sound(Cut(ch, c, k, st, rest), base, end, sz[c := Rd(sz, c) - ch[c].size + k][c + k := size + 1],
                  if Idle(ch[c]) then psz[c + k + size := size] else psz)
  {
    hide Granule, Word;
    var r := c + k;
    var ch' := Cut(ch, c, k, st, rest);
    var size := ch[c].size - k;
    var sz' := sz[c := Rd(sz, c) - ch[c].size + k][r := size + 1];
    var psz' := if Idle(ch[c]) then psz[r + size := size] else psz;
    assert Placed(ch, base, end, c);
    CutTiled(ch, base, end, c, k, st, rest);
    assert HeaderOK(ch, sz, psz, c) && TailOK(ch, sz, psz, c) && Bordered(ch, c);
    forall d {:trigger HeaderOK(ch', sz', psz', d)} | d in ch' ensures HeaderOK(ch', sz', psz', d) {
      if d in ch {
        assert HeaderOK(ch, sz, psz, d) && Placed(ch, base, end, d);
        if Rd(sz, d) == ch[d].size && d != Next(ch, c) {
          assert d - Rd(psz, d) != c;
        }
      }
    }
    forall d {:trigger TailOK(ch', sz', psz', d)} | d in ch' ensures TailOK(ch', sz', psz', d) {
      if d in ch {
        assert TailOK(ch, sz, psz, d) && Placed(ch, base, end, d);
        assert Apart(ch, c, d) && Apart(ch, d, c);
      }
    }
    forall d {:trigger Bordered(ch', d)} | d in ch' ensures Bordered(ch', d) {
      if d in ch { assert Bordered(ch, d) && Placed(ch, base, end, d); }
    }
  }

  /** Only the size words of chunks matter, and `prev_size` only behind a free chunk: everything
      else may be overwritten, in particular by the user of the chunk in front. */
  lemma TagsFrame(ch: Chunks, base: int, end: int, sz: Words, psz: Words, sz': Words, psz': Words)
    requires Sound(ch, base, end, sz, psz)
    requires forall c :: c in ch ==> Rd(sz', c) == Rd(sz, c)
    requires forall c :: c in ch && !FrontUsed(ch, sz, c) ==> Rd(psz', c) == Rd(psz, c)
    ensures Sound(ch, base, end, sz', psz')
  {
    forall d {:trigger HeaderOK(ch, sz', psz', d)} | d in ch ensures HeaderOK(ch, sz', psz', d) {
      assert HeaderOK(ch, sz, psz, d) && Placed(ch, base, end, d);
    }
    forall d {:trigger TailOK(ch, sz', psz', d)} | d in ch ensures TailOK(ch, sz', psz', d) {
      assert TailOK(ch, sz, psz, d) && Placed(ch, base, end, d);
      if !ch[d].st.Top? { assert Placed(ch, base, end, Next(ch, d)); }
    }
  }

  /** The end of the heap moves and the top chunk with it. */
  lemma ResizeTop(ch: Chunks, base: int, end: int, sz: Words, psz: Words, t: int, size: int)
    requires Sound(ch, base, end, sz, psz) && t in ch && ch[t].st.Top?
    requires size >= MINSIZE && Word(size)
    ensures Sound(ch[t := Chunk(size, Top)], base, t + size, sz[t := size + 1], psz)
  {
    hide Granule, Word;
    var ch' := ch[t := Chunk(size, Top)];
    var sz' := sz[t := size + 1];
    assert Placed(ch, base, end, t) && HeaderOK(ch, sz, psz, t);
    forall d {:trigger Placed(ch', base, t + size, d)} | d in ch' ensures Placed(ch', base, t + size, d) {
      assert Placed(ch, base, end, d) && Apart(ch, d, t) && Apart(ch, t, d);
    }
    forall d, e {:trigger Apart(ch', d, e)} | d in ch' && e in ch' ensures Apart(ch', d, e) {
      assert Apart(ch, d, e) && Placed(ch, base, end, e);
    }
    forall d {:trigger HeaderOK(ch', sz', psz, d)} | d in ch' ensures HeaderOK(ch', sz', psz, d) {
      assert HeaderOK(ch, sz, psz, d);
    }
    forall d {:trigger TailOK(ch', sz', psz, d)} | d in ch' ensures TailOK(ch', sz', psz, d) {
      assert TailOK(ch, sz, psz, d) && Placed(ch, base, end, d) && Bordered(ch, d);
    }
    forall d {:trigger Bordered(ch', d)} | d in ch' ensures Bordered(ch', d) {
      assert Bordered(ch, d);
    }
  }

  /** The first memory obtained from the system becomes the top chunk. */
  lemma FirstTop(sz: Words, psz: Words, t: int, size: int)
    requires Granule(t) && size >= MINSIZE && Word(size)
    ensures Sound(map[t := Chunk(size, Top)], t, t + size, sz[t := size + 1], psz)
  {
    hide Granule, Word;
    var ch := map[t := Chunk(size, Top)];
    assert Placed(ch, t, t + size, t);
  }

  /** A chunk in front of top takes some of top's bytes. */
  function Borrow(ch: Chunks, c: int, k: int, st: Status): Chunks
    requires c in ch && Next(ch, c) in ch
  {
    (ch - {Next(ch, c)})[c := Chunk(k, st)][c + k := Chunk(ch[c].size + ch[Next(ch, c)].size - k, Top)]
  }

  lemma BorrowTiled(ch: Chunks, base: int, end: int, c: int, k: int, st: Status)
    requires Tiled(ch, base, end) && c in ch && Next(ch, c) in ch && ch[Next(ch, c)].st.Top? && !ch[c].st.Top?
             && !st.Top?
    requires k >= ch[c].size && Granule(k) && ch[c].size + ch[Next(ch, c)].size - k >= MINSIZE
    ensures Tiled(Borrow(ch, c, k, st), base, end)
  {
    hide Granule, Word;
    var t := Next(ch, c);
    var r := c + k;
    var ch' := Borrow(ch, c, k, st);
    assert Placed(ch, base, end, c) && Placed(ch, base, end, t);
    GranuleSum(c, k);
    GranuleSum(ch[t].size, ch[c].size);
    GranuleSum(ch[t].size + ch[c].size, k);
    forall d {:trigger Placed(ch', base, end, d)} | d in ch' ensures Placed(ch', base, end, d) {
      if d != c && d != r {
        assert Placed(ch, base, end, d) && Apart(ch, c, d) && Apart(ch, d, c) && Apart(ch, t, d) && Apart(ch, d, t);
      }
    }
    forall d, e {:trigger Apart(ch', d, e)} | d in ch' && e in ch' ensures Apart(ch', d, e) {
      assert e == r || Placed(ch, base, end, e);
      assert e == r || d == r || Apart(ch, d, e);
      assert d == r || (Placed(ch, base, end, d) && Apart(ch, t, d) && Apart(ch, d, t) && Apart(ch, d, c)
          && Apart(ch, c, d));
      assert e == r || (Apart(ch, t, e) && Apart(ch, c, e));
    }
  }

  lemma BorrowTop(ch: Chunks, base: int, end: int, sz: Words, psz: Words, c: int, k: int, st: Status)
    requires Sound(ch, base, end, sz, psz) && c in ch && Next(ch, c) in ch && ch[Next(ch, c)].st.Top?
    requires InUse(ch[c].st) && InUse(st)
    requires k >= ch[c].size && Granule(k) && ch[c].size + ch[Next(ch, c)].size - k >= MINSIZE
    ensures var rest := ch[c].size + ch[Next(ch, c)].size - k;
            Sound(Borrow(ch, c, k, st), base, end, sz[c := Rd(sz, c) - ch[c].size + k][c + k := rest + 1], psz)
  {
    hide Granule, Word;
    var t := Next(ch, c);
    var r := c + k;
    var rest := ch[c].size + ch[t].size - k;
    var ch' := Borrow(ch, c, k, st);
    var sz' := sz[c := Rd(sz, c) - ch[c].size + k][r := rest + 1];
    assert Placed(ch, base, end, c) && Placed(ch, base, end, t);
    BorrowTiled(ch, base, end, c, k, st);
    assert r in ch ==> Placed(ch, base, end, r) && Apart(ch, t, r);
    assert HeaderOK(ch, sz, psz, c) && HeaderOK(ch, sz, psz, t);
    forall d {:trigger HeaderOK(ch', sz', psz, d)} | d in ch' ensures HeaderOK(ch', sz', psz, d) {
      if d != r {
        assert HeaderOK(ch, sz, psz, d) && Placed(ch, base, end, d);
        assert Apart(ch, d, t);
      }
    }
    forall d {:trigger TailOK(ch', sz', psz, d)} | d in ch' ensures TailOK(ch', sz', psz, d) {
      if d != r {
        assert TailOK(ch, sz, psz, d) && Placed(ch, base, end, d);
        assert Apart(ch, c, d) && Apart(ch, d, c) && Apart(ch, d, t) && Apart(ch, t, d);
      }
    }
    forall d {:trigger Bordered(ch', d)} | d in ch' ensures Bordered(ch', d) {
      if d != r {
        assert Bordered(ch, d) && Placed(ch, base, end, d);
        assert Apart(ch, c, d) && Apart(ch, d, c) && Apart(ch, d, t);
      }
    }
  }
}
