/** Programs that use the allocator: whatever they ask for and wherever in their own blocks they write,
    the heap stays intact and every block keeps what was stored in it. */
module Client {
  import opened Sizes
  import opened Layout
  import opened HeapView
  import opened Contents
  import opened BinSearch
  import opened Transitions
  import opened Outcomes
  import opened Allocator

  // ------------------------------------------------------------ the store a program sees

  /** What a program knows of one of its blocks: the bytes it asked for and the words it stored. */
  datatype Owned = Owned(bytes: nat, words: map<nat, int>)

  type Store = map<int, Owned>

  datatype Request =
    | New(bytes: nat)
    | NewAligned(alignment: nat, bytes: nat)
    | Resize(p: int, bytes: nat)
    | Drop(p: int)
    | Put(p: int, i: nat, x: int)

  /** Sizes and alignments for which a search cannot meet the 32-bit limit of `largebin_index`. */
  predicate Moderate(r: Request) {
    match r
    case New(bytes) => OutOfRange(bytes) || Request2Size(bytes) < WORD32
    case NewAligned(alignment, bytes) => OutOfRange(bytes) || Request2Size(bytes) + 2 * alignment + 128 < WORD32
    case Resize(_, bytes) => OutOfRange(bytes) || Request2Size(bytes) < WORD32
    case _ => true
  }

  /** A program hands back only what it owns, and writes only within the bytes it asked for. */
  predicate Allowed(s: Store, r: Request) {
    match r
    case Resize(p, _) => p in s
    case Drop(p) => p in s
    case Put(p, i, _) => p in s && 8 * i + 8 <= s[p].bytes
    case _ => true
  }

  /** The words that still fit. */
  function Fitting(words: map<nat, int>, bytes: nat): map<nat, int> {
    map i | i in words && 8 * i + 8 <= bytes :: words[i]
  }

  /** More bytes are asked for than an address can span. */
  predicate Excessive(r: Request) {
    match r
    case New(bytes) => OutOfRange(bytes)
    case NewAligned(_, bytes) => OutOfRange(bytes)
    case Resize(_, bytes) => OutOfRange(bytes)
    case _ => false
  }

  /** The request is met: an allocation adds a new block, a resize moves a block with its contents, and nothing else
      happens to any other block. */
  ghost predicate Met(s: Store, r: Request, s': Store) {
    match r
    case New(bytes) => exists p :: p !in s && s' == s[p := Owned(bytes, map[])]
    case NewAligned(alignment, bytes) =>
      exists p :: p !in s && AlignedTo(p + 16, alignment) && s' == s[p := Owned(bytes, map[])]
    case Resize(p, bytes) =>
      p in s && exists q :: (q == p || q !in s) && s' == (s - {p})[q := Owned(bytes, Fitting(s[p].words, bytes))]
    case Drop(p) => s' == s - {p}
    case Put(p, i, x) => p in s && s' == s[p := s[p].(words := s[p].words[i := x])]
  }

  /** The abstract store: a request is met, unless it is excessive, or is for memory and the system refused some
      while it was being made; then nothing changes. */
  ghost predicate Behaves(s: Store, r: Request, s': Store, calls: seq<Call>, calls': seq<Call>) {
    && calls <= calls'
    && if Excessive(r) then s' == s && calls' == calls
       else Met(s, r, s') || (s' == s && !r.Drop? && !r.Put? && Refused(calls, calls'))
  }

  /** The block at p, as the program knows it: its words are where they were stored. */
  ghost predicate Honoured(ch: Chunks, stored: Cells, p: int, o: Owned) {
    && p in ch && ch[p].st == Live(o.bytes)
    && (forall i {:trigger i in o.words} :: i in o.words ==>
          8 * i + 8 <= o.bytes && p + 16 + 8 * i in stored && stored[p + 16 + 8 * i] == Cell(p, o.words[i]))
  }

  /** The blocks in use are exactly the program's, and hold what it stored. */
  ghost predicate Intact(ch: Chunks, stored: Cells, s: Store) {
    && s.Keys == LiveMap(ch).Keys
    && (forall p {:trigger Honoured(ch, stored, p, s[p])} :: p in s ==> Honoured(ch, stored, p, s[p]))
  }

  // ------------------------------------------------------------ the blocks in memory

  /** A block is aligned and has room for the bytes asked for. */
  predicate Roomy(p: int, k: Chunk) {
    p > 0 && Granule(p) && k.st.Live? && k.st.req + 8 <= k.size
  }

  /** Blocks do not overlap, so neither do the bytes their owners may touch. */
  ghost predicate Spaced(live: Chunks) {
    && (forall p {:trigger Roomy(p, live[p])} :: p in live ==> Roomy(p, live[p]))
    && (forall p, q {:trigger Apart(live, p, q)} :: p in live && q in live ==> Apart(live, p, q))
  }

  lemma ValidSpaced(h: Heap)
    requires h.Valid()
    ensures Spaced(LiveMap(h.ch))
  {
    hide Core, Request2Size, BlockOK, Granule;
    var live := LiveMap(h.ch);
    forall p {:trigger Roomy(p, live[p])} | p in live ensures Roomy(p, live[p]) {
      HeaderFacts(h.V(), p);
      BlockRoom(live[p]);
    }
    forall p, q {:trigger Apart(live, p, q)} | p in live && q in live ensures Apart(live, p, q) {
      ApartFrom(h.V(), p, q);
    }
  }

  lemma BlockRoom(k: Chunk)
    requires BlockOK(k) && k.st.Live?
    ensures k.st.req + 8 <= k.size
  {
    Request2SizeLeast(k.st.req, 0);
  }

  // ------------------------------------------------------------ one request

  lemma SameBlocks(ch: Chunks, ch': Chunks, stored: Cells, s: Store)
    requires Intact(ch, stored, s) && LiveMap(ch') == LiveMap(ch)
    ensures Intact(ch', stored, s)
  {
    forall p {:trigger Honoured(ch', stored, p, s[p])} | p in s ensures Honoured(ch', stored, p, s[p]) {
      assert Honoured(ch, stored, p, s[p]) && p in LiveMap(ch');
    }
  }

  lemma OneMore(ch: Chunks, ch': Chunks, stored: Cells, s: Store, p: int, bytes: nat)
    requires Intact(ch, stored, s) && p in ch' && Taken(ch, ch', p, ch'[p].size, bytes)
    ensures p !in s && Intact(ch', stored, s[p := Owned(bytes, map[])])
  {
    var s' := s[p := Owned(bytes, map[])];
    forall q {:trigger Honoured(ch', stored, q, s'[q])} | q in s' ensures Honoured(ch', stored, q, s'[q]) {
      assert q != p ==> Honoured(ch, stored, q, s[q]) && q in LiveMap(ch');
    }
  }

  lemma OneLess(ch: Chunks, ch': Chunks, stored: Cells, s: Store, p: int)
    requires Intact(ch, stored, s) && LiveMap(ch') == LiveMap(ch) - {p}
    ensures Intact(ch', Forgotten(stored, p), s - {p})
  {
    var s', stored' := s - {p}, Forgotten(stored, p);
    forall q {:trigger Honoured(ch', stored', q, s'[q])} | q in s' ensures Honoured(ch', stored', q, s'[q]) {
      assert Honoured(ch, stored, q, s[q]) && q in LiveMap(ch');
    }
  }

  lemma OneMoved(ch: Chunks, ch': Chunks, stored: Cells, stored': Cells, s: Store, p: int, q: int, bytes: nat)
    requires Intact(ch, stored, s) && p in s && Spaced(LiveMap(ch'))
    requires q in ch' && Moved(ch, ch', p, q, Request2Size(bytes), bytes) && Kept(stored, stored', p, q, ch'[q].size)
    ensures q == p || q !in s
    ensures Intact(ch', stored', (s - {p})[q := Owned(bytes, Fitting(s[p].words, bytes))])
  {
    hide Request2Size, Granule;
    var s' := (s - {p})[q := Owned(bytes, Fitting(s[p].words, bytes))];
    var live' := LiveMap(ch');
    assert Honoured(ch, stored, p, s[p]);
    forall d {:trigger Honoured(ch', stored', d, s'[d])} | d in s' ensures Honoured(ch', stored', d, s'[d]) {
      if d == q {
        assert Roomy(q, live'[q]);
        forall i {:trigger i in s'[d].words} | i in s'[d].words
          ensures q + 16 + 8 * i in stored' && stored'[q + 16 + 8 * i] == Cell(q, s'[d].words[i])
        {
          assert stored[p + 16 + 8 * i] == Cell(p, s[p].words[i]);
          assert q - p + (p + 16 + 8 * i) == q + 16 + 8 * i;
        }
      } else {
        assert Honoured(ch, stored, d, s[d]) && d in live';
        forall i {:trigger i in s[d].words} | i in s[d].words ensures stored'[d + 16 + 8 * i] ==
            Cell(d, s[d].words[i]) {
          assert stored[d + 16 + 8 * i] == Cell(d, s[d].words[i]);
        }
      }
    }
  }

  lemma OneWritten(ch: Chunks, stored: Cells, s: Store, p: int, i: nat, x: int)
    requires Intact(ch, stored, s) && Spaced(LiveMap(ch)) && p in s && 8 * i + 8 <= s[p].bytes
    ensures Intact(ch, stored[p + 16 + 8 * i := Cell(p, x)], s[p := s[p].(words := s[p].words[i := x])])
  {
    hide Granule;
    var s' := s[p := s[p].(words := s[p].words[i := x])];
    var stored' := stored[p + 16 + 8 * i := Cell(p, x)];
    var live := LiveMap(ch);
    assert Honoured(ch, stored, p, s[p]);
    forall d {:trigger Honoured(ch, stored', d, s'[d])} | d in s' ensures Honoured(ch, stored', d, s'[d]) {
      assert Honoured(ch, stored, d, s[d]);
      assert Apart(live, d, p) && Apart(live, p, d) && Roomy(d, live[d]) && Roomy(p, live[p]);
    }
  }

  /** A program writes a word of its block: whatever field of a chunk header that word may have been or
      may become, the allocator does not depend on it. */
  method Write(h: Heap, p: int, i: nat, x: int)
    requires h.Valid() && p in LiveMap(h.ch) && 8 * i + 16 <= h.ch[p].size
    modifies h`sz, h`psz, h`fd, h`bk, h`stored
    ensures h.Valid() && h.ch == old(h.ch) && h.stored == old(h.stored)[p + 16 + 8 * i := Cell(p, x)]
  {
    hide Core, MapOK, FlagsOK, BlocksOK, TopOK, Settled, Inside;
    assert h.Ready() && Settled(h.ch);
    WordInside(h.V(), p, i);
    h.Poke(p + 16 + 8 * i, x, p);
  }

  lemma WordInside(v: View, p: int, i: nat)
    requires Core(v) && p in v.ch && 8 * i + 16 <= v.ch[p].size
    ensures Inside(v.ch, p, p + 16 + 8 * i)
  {
    hide Core, Word, Granule;
    HeaderFacts(v, p);
    UserWord(p);
    WordAt(p + 16, i);
  }

  /** A program reads a word of its block: it finds the word it stored last, whatever happened in between. */
  method Load(h: Heap, p: int, i: nat, ghost s: Store) returns (x: int)
    requires h.Valid() && Intact(h.ch, h.stored, s) && p in s && i in s[p].words
    ensures x == s[p].words[i] && Holds(h.V(), p + 16 + 8 * i, x)
  {
    hide Core;
    assert Honoured(h.ch, h.stored, p, s[p]);
    assert Core(h.V());
    StoredHere(h.V(), p + 16 + 8 * i);
    x := Rd(h.psz, p + 16 + 8 * i);
  }

  lemma StoredHere(v: View, a: int)
    requires Core(v) && a in v.stored
    ensures Holds(v, a, v.stored[a].word)
  {
    assert StoredAt(v, a);
  }

  method Perform(h: Heap, r: Request, s: Store) returns (s': Store)
    requires h.Valid() && Intact(h.ch, h.stored, s) && Moderate(r) && Allowed(s, r)
    modifies h
    ensures h.Valid() && Intact(h.ch, h.stored, s') && Behaves(s, r, s', old(h.calls), h.calls)
  {
    hide Core, Request2Size, OutOfRange, Chosen, PoolOf, NoFast, NoFit, Kept, MapOK, FlagsOK, BlocksOK, TopOK,
         Settled, Granule, Word, Forgotten, AlignedTo, Malloced, Allocated, Reallocated, CutOut, Freed, Refused;
    s' := s;
    ghost var a := h.Now();
    ghost var ch0, stored0 := h.ch, h.stored;
    ValidSpaced(h);
    match r
    case New(bytes) =>
      ghost var how, pool;
      var mem;
      mem, how, pool := h.Malloc(bytes);
      if !OutOfRange(bytes) {
        MallocedGrows(a, h.Now(), h.pagesize, pool, ChunkOf(mem), Request2Size(bytes), bytes, how);
      }
      if mem == 0 {
        SameBlocks(ch0, h.ch, h.stored, s);
      } else {
        ChosenTaken(ch0, pool, h.ch, mem - 16, Request2Size(bytes), bytes, how);
        s' := s[mem - 16 := Owned(bytes, map[])];
        OneMore(ch0, h.ch, h.stored, s, mem - 16, bytes);
      }
    case NewAligned(alignment, bytes) =>
      var mem := h.Memalign(alignment, bytes);
      if !OutOfRange(bytes) {
        if alignment <= 16 {
          AllocatedGrows(a, h.Now(), h.pagesize, ChunkOf(mem), Request2Size(bytes), bytes);
        } else {
          ghost var align: nat :|
            SmallestPower(align, alignment) && CutOut(a, h.Now(), h.pagesize, align, Request2Size(bytes), bytes, mem);
          CutOutGrows(a, h.Now(), h.pagesize, align, Request2Size(bytes), bytes, mem);
        }
      }
      if mem == 0 {
        SameBlocks(ch0, h.ch, h.stored, s);
      } else {
        s' := s[mem - 16 := Owned(bytes, map[])];
        OneMore(ch0, h.ch, h.stored, s, mem - 16, bytes);
      }
    case Resize(p, bytes) =>
      assert Roomy(p, LiveMap(h.ch)[p]);
      var mem := h.Realloc(p + 16, bytes);
      if !OutOfRange(bytes) {
        ReallocatedGrows(a, h.Now(), h.pagesize, p, Request2Size(bytes), bytes, ChunkOf(mem));
      }
      if mem == 0 {
        SameBlocks(ch0, h.ch, h.stored, s);
      } else {
        ValidSpaced(h);
        s' := (s - {p})[mem - 16 := Owned(bytes, Fitting(s[p].words, bytes))];
        OneMoved(ch0, h.ch, stored0, h.stored, s, p, mem - 16, bytes);
      }
    case Drop(p) =>
      assert Roomy(p, LiveMap(h.ch)[p]) && {p + 16 - 16} == {p};
      h.Free(p + 16);
      FreedGrows(a, h.Now(), h.pagesize, p);
      s' := s - {p};
      OneLess(ch0, h.ch, stored0, s, p);
    case Put(p, i, x) =>
      assert Roomy(p, LiveMap(h.ch)[p]) && Honoured(h.ch, h.stored, p, s[p]);
      Write(h, p, i, x);
      s' := s[p := s[p].(words := s[p].words[i := x])];
      OneWritten(h.ch, stored0, s, p, i, x);
  }

  // ------------------------------------------------------------ whole runs

  /** A run of the abstract store, with the calls of the system so far; requests a program is not entitled to make
      are not made. */
  ghost predicate Run(states: seq<Store>, script: seq<Request>, logs: seq<seq<Call>>) {
    && |states| == |logs| == |script| + 1 && states[0] == map[] && logs[0] == []
    && (forall i {:trigger script[i]} :: 0 <= i < |script| ==>
          if Allowed(states[i], script[i]) then Behaves(states[i], script[i], states[i + 1], logs[i], logs[i + 1])
          else states[i + 1] == states[i] && logs[i + 1] == logs[i])
  }

  /** Every program that stays within its own blocks sees a run of the abstract store, from an allocator
      that has never been used; at the end its blocks are the blocks in use, apart from each other, and
      hold what it stored. */
  method Session(start: int, limit: int, pagesize: int, script: seq<Request>)
      returns (h: Heap, states: seq<Store>, ghost logs: seq<seq<Call>>)
    requires forall i :: 0 <= i < |script| ==> Moderate(script[i])
    requires 0 < start <= limit < start + WORD32 && Word(start) && pagesize > 0 && Granule(pagesize)
    ensures fresh(h) && h.Valid() && Run(states, script, logs) && logs[|script|] == h.calls
    ensures Intact(h.ch, h.stored, states[|script|]) && Spaced(LiveMap(h.ch))
  {
    hide Heap.Valid, Moderate, Allowed, Behaves, Word, Granule;
    h := new Heap(start, limit, pagesize);
    states, logs := [map[]], [[]];
    var n := 0;
    while n < |script|
      invariant 0 <= n <= |script| && fresh(h) && h.Valid()
      invariant Run(states, script[..n], logs) && logs[n] == h.calls && Intact(h.ch, h.stored, states[n])
    {
      var s' := states[n];
      if Allowed(states[n], script[n]) {
        s' := Perform(h, script[n], states[n]);
      }
      assert script[..n + 1] == script[..n] + [script[n]];
      states, logs := states + [s'], logs + [h.calls];
      n := n + 1;
    }
    assert script[..n] == script;
    ValidSpaced(h);
  }

  /** The calls of a run add up. */
  lemma {:induction false} LogsGrow(states: seq<Store>, script: seq<Request>, logs: seq<seq<Call>>, i: nat, j: nat)
    requires Run(states, script, logs) && i <= j <= |script|
    ensures logs[i] <= logs[j]
    decreases j
  {
    if i < j {
      LogsGrow(states, script, logs, i, j - 1);
      hide Met, Allowed, Excessive, Refused;
      assert script[j - 1] == script[j - 1];
    }
  }

  /** As long as the system grants what it is asked for, every request that is not excessive is met. */
  lemma AlwaysMet(states: seq<Store>, script: seq<Request>, logs: seq<seq<Call>>, i: nat)
    requires Run(states, script, logs) && i < |script| && Allowed(states[i], script[i]) && !Excessive(script[i])
    requires forall k {:trigger logs[|script|][k]} :: 0 <= k < |logs[|script|]| && logs[|script|][k].Asked? ==>
               logs[|script|][k].granted
    ensures Met(states[i], script[i], states[i + 1])
  {
    LogsGrow(states, script, logs, i + 1, |script|);
    hide Met, Allowed, Excessive;
    var k := |logs[i + 1]| - 1;
    assert k >= 0 ==> logs[|script|][k] == logs[i + 1][k];
  }

  /** What `Spaced` means to the owners: the bytes they asked for start on a 16-byte boundary and no
      byte belongs to two of them. */
  lemma BytesApart(h: Heap, s: Store, p: int, q: int, i: nat, j: nat)
    requires h.Valid() && Intact(h.ch, h.stored, s) && p in s && q in s && p != q
    requires i < s[p].bytes && j < s[q].bytes
    ensures p + 16 + i != q + 16 + j && (p + 16) % 16 == 0
  {
    ValidSpaced(h);
    var live := LiveMap(h.ch);
    hide Granule;
    assert Honoured(h.ch, h.stored, p, s[p]) && Honoured(h.ch, h.stored, q, s[q]);
    assert Roomy(p, live[p]) && Roomy(q, live[q]) && Apart(live, p, q) && Apart(live, q, p);
    Aligned16(p);
  }

  lemma Aligned16(p: int)
    requires Granule(p)
    ensures (p + 16) % 16 == 0
  {
  }
}
