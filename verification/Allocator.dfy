/** The allocator: `malloc_state` as a class whose fields are updated in place. */
module Allocator {
  import opened Sizes
  import opened Layout
  import opened Shelves
  import opened HeapView
  import opened Contents
  import opened Binmap
  import opened BinSearch
  import opened Transitions
  import opened Outcomes

  class Heap {
    // chunk headers, links and the fields of malloc_state
    var sz: Words
    var psz: Words
    var fd: Words
    var bk: Words
    var top: int
    var lastRemainder: int
    var maxFast: int
    var heads: seq<int>
    var binmap: seq<Word32>
    // the system: the program break, which starts at `start` and cannot grow beyond `limit`
    var brk: int
    const start: int
    const limit: int
    const pagesize: int

    // the abstract heap
    ghost var ch: Chunks
    ghost var base: int
    ghost var end: int
    ghost var bins: seq<List>
    ghost var fast: seq<List>
    ghost var stored: Cells
    // what the system has been asked so far, and its answers
    ghost var calls: seq<Call>

    ghost function V(): View
      reads this
    {
      View(ch, base, end, sz, psz, fd, bk, bins, fast, heads, stored)
    }

    ghost function Now(): Moment
      reads this
    {
      Moment(V(), calls, lastRemainder)
    }

    /** The state of zeroes a C static starts with: nothing obtained yet, `max_fast` still 0. */
    ghost predicate Blank()
      reads this
    {
      && maxFast == 0 && ch == map[] && base == end && Bounded()
      && bins == seq(NBINS, i => []) && fast == seq(NFASTBINS, i => []) && heads == seq(NFASTBINS, i => 0)
      && binmap == [0, 0, 0, 0] && sz == map[] && psz == map[] && fd == map[] && bk == map[] && stored == map[]
    }

    /** What holds between any two calls. */
    ghost predicate Valid()
      reads this
    {
      Blank() || (Ready() && Settled(ch))
    }

    /** The invariant of an initialised allocator, except that a chunk may be between two uses. */
    ghost predicate Ready()
      reads this
    {
      && Core(V()) && TopOK(V(), top)
      && MapOK(binmap, bins) && FlagsOK(maxFast, bins, fast) && BlocksOK(LiveMap(ch))
      && Bounded()
    }

    /** The heap lies between the first break and the current one; breaks span less than 4 GiB. */
    ghost predicate Bounded()
      reads this
    {
      && 0 < start <= brk <= limit < start + WORD32 && Word(brk)
      && pagesize > 0 && Granule(pagesize)
      && (base < end ==> start <= base && end == brk)
    }

    /** `unlink`. */
    method Unlink(p: int, ghost w: View, ghost i: int, ghost k: int)
      requires Core(w) && InBin(w, i, k) && p == w.bins[i][k] && fd == w.fd && bk == w.bk
      modifies this`fd, this`bk
      ensures fd == Unlinked(w, i, k).fd && bk == Unlinked(w, i, k).bk
    {
      hide Core;
      UnlinkedCore(w, i, k);
      var fwd := Rd(fd, p);
      var bck := Rd(bk, p);
      bk := bk[fwd := bck];
      fd := fd[bck := fwd];
    }

    /** Place a chunk in front of the unsorted queue. */
    method Enqueue(p: int, ghost w: View)
      requires Core(w) && p in w.ch && |w.bins| == NBINS && fd == w.fd && bk == w.bk
      modifies this`fd, this`bk
      ensures fd == Inserted(w, 1, 0, p).fd && bk == Inserted(w, 1, 0, p).bk
    {
      assert RingAt(w.fd, w.bk, w.bins, 1) && Arc(w.fd, w.bk, Bin(1), w.bins[1], -1);
      var fwd := Rd(fd, Bin(1));
      bk := bk[p := Bin(1)];
      fd := fd[p := fwd];
      fd := fd[Bin(1) := p];
      bk := bk[fwd := p];
    }

    /** Consolidate backward: the held chunk p0 is joined with a free chunk in front of it.  The
        header is not written yet; w is the heap with the joined header. */
    method JoinFront(p0: int, ghost w0: View) returns (p: int, size: int, ghost w: View)
      requires Core(w0) && p0 in w0.ch && w0.ch[p0].st.Held? && SettledBut(w0.ch, p0)
      requires sz == w0.sz && psz == w0.psz && fd == w0.fd && bk == w0.bk
      modifies this`fd, this`bk
      ensures Core(w) && p in w.ch && w.ch[p] == Chunk(size, Held) && FrontUsed(w.ch, w.sz, p)
      ensures p + size == Next(w0.ch, p0) && p in w0.ch && !w0.ch[p].st.Top? && SettledBut(w.ch, p)
      ensures forall c :: c in w.ch && c != p ==> c in w0.ch && w.ch[c] == w0.ch[c]
      ensures forall c :: c in w0.ch && !Idle(w0.ch[c]) && c != p0 ==> c in w.ch
      ensures w.sz == sz[p := size + 1] && LiveMap(w.ch) == LiveMap(w0.ch) && Shrunk(w0.bins, w.bins)
              && Covers(w0.ch, w.ch)
      ensures p == FrontOf(w0.ch, p0) && w.ch == (w0.ch - {p0})[p := Chunk(size, Held)] && w.bins == Off(w0.bins, p)
      ensures w == w0.(ch := w.ch, bins := w.bins, sz := w.sz, fd := fd, bk := bk)
    {
      hide Core, ChunkSize, PrevInuse, Granule, Word, Unlinked, Covers, FrontOf, Off;
      w, p := w0, p0;
      CoversRefl(w0.ch);
      HeaderFacts(w0, p0);
      NextFacts(w0, p0);
      size := ChunkSize(Rd(sz, p));
      if !PrevInuse(Rd(sz, p)) {
        var prevsize := Rd(psz, p);
        size := size + prevsize;
        FrontFacts(w0, p0);
        p := p - prevsize;
        HeaderFacts(w0, p);
        ghost var k := Locate(w0, p);
        Unlink(p, w0, w0.ch[p].st.bin, k);
        w := AbsorbFront(w0, p0, p, k);
        FrontIs(w0, p, p0);
      } else {
        OffAbsent(w0, p0);
        FrontIs(w0, p, p0);
        assert sz[p := size + 1] == sz;
      }
      assert w.sz == sz[p := size + 1];
    }

    /** A chunk tagged free is put in front of the unsorted queue; its header and foot are written. */
    method QueueFree(p: int, size: int, ghost w0: View) returns (ghost w: View)
      requires Core(w0) && p in w0.ch && w0.ch[p] == Chunk(size, Loose)
      requires w0.sz == sz[p := size + 1] && w0.psz == psz[p + size := size] && w0.fd == fd && w0.bk == bk
      modifies this`sz, this`psz, this`fd, this`bk
      ensures w.ch == w0.ch[p := Chunk(size, Binned(1))] && w.bins == Queue(w0.bins, p)
      ensures w == w0.(ch := w.ch, bins := w.bins, sz := sz, psz := psz, fd := fd, bk := bk)
      ensures Core(w) && LiveMap(w.ch) == LiveMap(w0.ch) && Shrunk(w0.bins, w.bins) && Covers(w0.ch, w.ch)
    {
      hide Core, Inserted, Covers, Queue;
      CoreShape(w0);
      Enqueue(p, w0);
      w := Queued(w0, p);
      sz := sz[p := size + 1];
      psz := psz[p + size := size];
    }

    /** Consolidate forward and queue: the held chunk p, not yet written, is joined with a free chunk
        behind it, tagged free and put in front of the unsorted queue. */
    method JoinBack(p: int, size0: int, next: int, nextsize: int, ghost w0: View) returns (size: int, ghost w: View)
      requires Core(w0) && p in w0.ch && w0.ch[p] == Chunk(size0, Held) && FrontUsed(w0.ch, w0.sz, p)
      requires SettledBut(w0.ch, p) && next == p + size0
      requires next in w0.ch && w0.ch[next].size == nextsize && !w0.ch[next].st.Top?
      requires psz == w0.psz && fd == w0.fd && bk == w0.bk
      requires w0.sz == sz[p := size0 + 1]
      modifies this`sz, this`psz, this`fd, this`bk
      ensures Core(w) && Settled(w.ch) && LiveMap(w.ch) == LiveMap(w0.ch) && Shrunk(w0.bins, w.bins)
              && Covers(w0.ch, w.ch)
      ensures if Idle(w0.ch[next]) then
                && size == size0 + nextsize && w.ch == (w0.ch - {next})[p := Chunk(size, Binned(1))]
                && w.bins == Queue(Off(w0.bins, next), p)
              else
                && size == size0 && w.ch == w0.ch[p := Chunk(size, Binned(1))] && w.bins == Queue(w0.bins, p)
      ensures w == w0.(ch := w.ch, bins := w.bins, sz := sz, psz := psz, fd := fd, bk := bk)
    {
      hide Core, ChunkSize, PrevInuse, Granule, Word, Unlinked, Covers, Off, Queue;
      w, size := w0, size0;
      NextFacts(w, p);
      NextFacts(w, next);
      HeaderFacts(w, next);
      HeaderFacts(w, next + nextsize);
      var nextinuse := PrevInuse(Rd(sz, next + nextsize));
      HeaderFacts(w, p);
      Overwritten(sz, p, next, size0 + 1, nextsize, size0 + nextsize + 1);
      sz := sz[next := nextsize];
      if !nextinuse {
        ghost var k := Locate(w, next);
        Unlink(next, w, w.ch[next].st.bin, k);
        size := size + nextsize;
        w := AbsorbNext(w, p, k);
      } else {
        w := FreeAlone(w, p);
      }
      ghost var u := w;
      w := QueueFree(p, size, w);
      CoversTrans(w0.ch, u.ch, w.ch);
    }

    /** The consolidation code shared by `free` and `malloc_consolidate`: the held chunk p0 is joined
        with its free neighbours, or with top, and what results is queued or becomes top. */
    method Coalesce(p0: int, ghost w0: View) returns (size: int, ghost w: View)
      requires Core(w0) && TopOK(w0, top) && p0 in w0.ch && w0.ch[p0].st.Held? && SettledBut(w0.ch, p0)
      requires sz == w0.sz && psz == w0.psz && fd == w0.fd && bk == w0.bk
      modifies this`sz, this`psz, this`fd, this`bk, this`top
      ensures Core(w) && TopOK(w, top) && Settled(w.ch) && LiveMap(w.ch) == LiveMap(w0.ch) && Shrunk(w0.bins, w.bins)
              && Covers(w0.ch, w.ch)
      ensures ListsOf(w) == Joined(ListsOf(w0), p0) && size == JoinedSize(w0.ch, p0)
      ensures w == w0.(ch := w.ch, bins := w.bins, sz := sz, psz := psz, fd := fd, bk := bk)
    {
      hide Core, ChunkSize, PrevInuse, Granule, Word, Merged, Covers, Off, Queue, FrontOf, Joined,
           JoinedSize;
      HeaderFacts(w0, p0);
      NextFacts(w0, p0);
      var next := p0 + ChunkSize(Rd(sz, p0));
      HeaderFacts(w0, next);
      TopUnique(w0, top, next);
      var nextsize := ChunkSize(Rd(sz, next));
      var p;
      p, size, w := JoinFront(p0, w0);
      ghost var u := w;
      NextFacts(w, p);
      if next != top {
        size, w := JoinBack(p, size, next, nextsize, w);
      } else {
        size := size + nextsize;
        sz := sz[p := size + 1];
        top := p;
        w := JoinTop(w, p);
        StoredAway(u);
        RetaggedCore(w, sz, psz);
        w := w.(sz := sz);
      }
      CoversTrans(w0.ch, u.ch, w.ch);
      JoinedIs(w0, u, w, p0, size);
    }

    /** The first chunk of fastbin i is brought back to the bins.  The link to the next one is read before the chunk
        is consolidated; the next one stays a chunk, since its in-use bit is set. */
    method BringBack(i: int, p: int, ghost w0: View) returns (nextp: int, ghost w: View)
      requires Core(w0) && TopOK(w0, top) && Settled(w0.ch) && 0 <= i < NFASTBINS
      requires |w0.fast| == |w0.heads| == NFASTBINS && w0.fast[i] != [] && w0.heads[i] == p
      requires sz == w0.sz && psz == w0.psz && fd == w0.fd && bk == w0.bk
      modifies this`sz, this`psz, this`fd, this`bk, this`top
      ensures Core(w) && TopOK(w, top) && Settled(w.ch) && LiveMap(w.ch) == LiveMap(w0.ch) && Shrunk(w0.bins, w.bins)
              && Covers(w0.ch, w.ch)
      ensures w.fast == w0.fast[i := w0.fast[i][1..]] && w.heads == w0.heads[i := nextp]
      ensures nextp == 0 <==> w.fast[i] == []
      ensures p == w0.fast[i][0] && p in w0.ch && ListsOf(w) == Joined(ListsOf(w0), p)
      ensures w == w0.(ch := w.ch, bins := w.bins, fast := w.fast, heads := w.heads, sz := sz, psz := psz, fd := fd,
                       bk := bk)
    {
      hide Core, ChunkSize, PrevInuse, Granule, Word, FastPopped, Covers, Joined, JoinedSize;
      FastHead(w0, i);
      nextp := Rd(fd, p);
      ghost var w1 := PopHeld(w0, i);
      ghost var size;
      size, w := Coalesce(p, w1);
      CoversTrans(w0.ch, w1.ch, w.ch);
      FastHead(w, i);
      JoinedMarked(w0, w1, p, Held);
    }

    /** Bring every chunk of fastbin i back to the bins.  The list is detached at once. */
    method DrainFastbin(i: int)
      requires Core(V()) && TopOK(V(), top) && Settled(ch) && 0 <= i < NFASTBINS
      modifies this`sz, this`psz, this`fd, this`bk, this`top, this`heads, this`ch, this`bins, this`fast
      ensures Core(V()) && TopOK(V(), top) && Settled(ch) && LiveMap(ch) == old(LiveMap(ch))
      ensures Shrunk(old(bins), bins) && i < |old(fast)| && fast == old(fast)[i := []] && Covers(old(ch), ch)
      ensures Lists(ch, bins) == Sweep(old(Lists(ch, bins)), old(fast)[i])
    {
      hide Core, Covers, Joined, Sweep, TopOK, Settled, LiveMap, Shrunk;
      CoversRefl(ch);
      ShrunkRefl(bins);
      CoreShape(V());
      FastHead(V(), i);
      ghost var w, order, k := V(), fast[i], 0;
      SweepNone(Lists(ch, bins), order);
      var p := heads[i];
      DrainStart(fast, heads, i);
      heads := heads[i := 0];
      while p != 0
        invariant heads == old(heads)[i := 0] && fast == old(fast) && |fast| == |heads| == NFASTBINS
        invariant 0 <= k <= |order| && (p == 0 <==> k == |order|)
        invariant w == V().(ch := w.ch, bins := w.bins, fast := fast[i := order[k..]], heads := heads[i := p])
        invariant Core(w) && TopOK(w, top) && Settled(w.ch) && LiveMap(w.ch) == old(LiveMap(ch))
        invariant Shrunk(old(bins), w.bins) && Covers(old(ch), w.ch)
        invariant ListsOf(w) == Sweep(old(Lists(ch, bins)), order[..k])
        decreases |order| - k
      {
        ghost var u, q := w, p;
        p, w := BringBack(i, p, w);
        DrainStep(fast, heads, i, order, k, q, p);
        CoversTrans(old(ch), u.ch, w.ch);
        ShrunkTrans(old(bins), u.bins, w.bins);
        SweepOne(old(Lists(ch, bins)), order, k);
        k := k + 1;
      }
      assert order[..k] == order && order[k..] == [];
      ch, bins, fast := w.ch, w.bins, w.fast;
      assert heads[i := 0] == heads;
    }

    /** `malloc_consolidate` on an initialised heap: all fastbins are emptied. */
    method Consolidate()
      requires Ready() && Settled(ch) && HaveFast(maxFast)
      modifies this`sz, this`psz, this`fd, this`bk, this`top, this`heads, this`maxFast, this`ch, this`bins, this`fast
      ensures Ready() && Settled(ch) && LiveMap(ch) == old(LiveMap(ch)) && base == old(base) && end == old(end)
      ensures !HaveFast(maxFast) && HaveAny(maxFast) && forall i :: 0 <= i < |fast| ==> fast[i] == []
      ensures Covers(old(ch), ch) && |fast| == |old(fast)|
      ensures Lists(ch, bins) == Sweep(old(Lists(ch, bins)), Flat(old(fast)))
    {
      hide Core, FastIndex, HaveAny, HaveFast, ClearFast, SetFast, SetAny, MapOK, TopOK, Covers, Sweep, Flat;
      CoversRefl(ch);
      FlatNone(fast);
      SweepNone(Lists(ch, bins), []);
      CoreShape(V());
      FlagFacts(maxFast);
      maxFast := ClearFast(maxFast);
      FlagFacts(maxFast);
      var last := FastIndex(maxFast);
      var i := 0;
      while i <= last
        invariant 0 <= i <= 9 && last == 8 && |fast| == NFASTBINS && maxFast == ClearFast(old(maxFast))
        invariant Core(V()) && TopOK(V(), top) && Settled(ch) && LiveMap(ch) == old(LiveMap(ch))
        invariant Shrunk(old(bins), bins) && Covers(old(ch), ch)
        invariant forall j :: 0 <= j < i ==> fast[j] == []
        invariant |old(fast)| == NFASTBINS && forall j :: i <= j < |fast| ==> fast[j] == old(fast)[j]
        invariant Lists(ch, bins) == Sweep(old(Lists(ch, bins)), Flat(old(fast)[..i]))
      {
        ghost var ch1 := ch;
        FlatNext(old(fast), i);
        SweepAppend(old(Lists(ch, bins)), Flat(old(fast)[..i]), old(fast)[i]);
        DrainFastbin(i);
        CoversTrans(old(ch), ch1, ch);
        i := i + 1;
      }
      FlatRest(old(fast), i);
      MapShrunk(binmap, old(bins), bins);
    }

    /** All fastbins are emptied, if any holds a chunk. */
    method Tidy()
      requires Ready() && Settled(ch)
      modifies this`sz, this`psz, this`fd, this`bk, this`top, this`heads, this`maxFast, this`ch, this`bins, this`fast
      ensures Ready() && Settled(ch) && LiveMap(ch) == old(LiveMap(ch)) && Covers(old(ch), ch)
      ensures !HaveFast(maxFast) && |fast| == |old(fast)| && Emptied(fast)
      ensures Lists(ch, bins) == Sweep(old(Lists(ch, bins)), Flat(old(fast)))
    {
      hide Core, MapOK, FlagsOK, BlocksOK, TopOK, Settled, LiveMap, Covers, HaveFast, HaveAny, Sweep, Flat;
      if HaveFast(maxFast) {
        Consolidate();
      } else {
        CoversRefl(ch);
        NothingToSweep(maxFast, bins, fast, Lists(ch, bins));
      }
    }

    /** `MORECORE` with a negative argument: the system takes back some of the offered bytes. */
    method Release(extra: int)
      requires extra >= 0 && Word(brk)
      modifies this`brk, this`calls
      ensures old(brk) - extra <= brk <= old(brk) && Word(brk)
      ensures calls == old(calls) + [Offered(extra, old(brk) - brk)]
    {
      var released: int :| 0 <= released <= extra && Word(brk - released);
      brk := brk - released;
      calls := calls + [Offered(extra, released)];
    }

    /** Top gets the given size. */
    method SetTop(size: int)
      requires Core(V()) && TopOK(V(), top) && base < end && size >= MINSIZE && Word(size)
      modifies this`sz, this`ch, this`end
      ensures Core(V()) && TopOK(V(), top) && base < end && LiveMap(ch) == old(LiveMap(ch))
      ensures old(Settled(ch)) ==> Settled(ch)
      ensures ch == old(ch)[top := Chunk(size, Top)] && end == top + size
    {
      hide Core, TopOK, Settled, LiveMap, Word, TopResized;
      ShrunkTop(V(), top, size);
      TopResizedIs(V(), top, size);
      sz := sz[top := size + 1];
      ch, end := ch[top := Chunk(size, Top)], top + size;
      assert V() == TopResized(old(V()), top, size);
    }

    /** `sYSTRIm` with a pad of 0: memory at the end of top goes back to the system in whole pages. */
    method SysTrim()
      requires Ready() && base < end
      modifies this`sz, this`brk, this`calls, this`ch, this`end
      ensures Ready() && base < end && LiveMap(ch) == old(LiveMap(ch)) && (old(Settled(ch)) ==> Settled(ch))
      ensures old(top in ch) && var size := old(ch)[top].size;
              var extra, taken := Spare(size, pagesize), old(end) - end;
              if extra <= 0 then ch == old(ch) && end == old(end) && calls == old(calls)
              else
                && 0 <= taken <= extra && ch == old(ch)[top := Chunk(size - taken, Top)]
                && calls == old(calls) + [Offered(extra, taken)]
    {
      hide Core, ChunkSize, PrevInuse, Granule, Word, MapOK, FlagsOK, BlocksOK, LiveMap, Settled;
      HeaderFacts(V(), top);
      var topSize := ChunkSize(Rd(sz, top));
      var extra := ((topSize - MINSIZE + (pagesize - 1)) / pagesize - 1) * pagesize;
      if extra > 0 {
        KeepsTop(topSize, pagesize);
        assert topSize == ch[top].size && brk == top + topSize by { TopEnds(V(), top); }
        Release(extra);
        var released := top + topSize - brk;
        if released != 0 {
          TopWords(top, brk);
          SetTop(topSize - released);
        }
      }
    }

    /** A small chunk goes to the front of its fastbin and keeps its in-use bit. */
    method FreeFast(p: int, size: int)
      requires Ready() && SettledBut(ch, p) && p in ch && (ch[p].st.Live? || ch[p].st.Held?) && Bare(stored, p)
      requires size == ch[p].size <= MAX_FAST
      modifies this`fd, this`heads, this`maxFast, this`ch, this`fast
      ensures Ready() && Settled(ch) && LiveMap(ch) == old(LiveMap(ch)) - {p}
      ensures var i := size / 8 - 2;
              && 0 <= i < |old(fast)| && fast == old(fast)[i := [p] + old(fast)[i]]
              && ch == old(ch)[p := Chunk(size, Fast)]
    {
      hide Core, Granule, Word, SetFast, MapOK, FlagsOK, BlocksOK, TopOK, Settled, SettledBut, LiveMap;
      ghost var w := PushView(V(), top, p);
      BlocksLess(LiveMap(ch), LiveMap(ch), p);
      var i := FastIndex(size);
      FlagsPushed(maxFast, bins, fast, i, p);
      maxFast := SetFast(maxFast);
      fd := fd[p := heads[i]];
      heads := heads[i := p];
      ch, fast := w.ch, w.fast;
      assert V() == w;
    }

    /** A larger chunk is consolidated at once. */
    method FreeJoin(p: int) returns (size: int)
      requires Ready() && SettledBut(ch, p) && p in ch && (ch[p].st.Live? || ch[p].st.Held?) && Bare(stored, p)
      modifies this`sz, this`psz, this`fd, this`bk, this`top, this`maxFast, this`ch, this`bins
      ensures Ready() && Settled(ch) && LiveMap(ch) == old(LiveMap(ch)) - {p} && base < end
      ensures Lists(ch, bins) == Joined(old(Lists(ch, bins)), p) && size == JoinedSize(old(ch), p)
    {
      hide Core, Granule, Word, SetAny, MapOK, FlagsOK, BlocksOK, TopOK, Settled, SettledBut, LiveMap, Shrunk, Joined,
           JoinedSize;
      ghost var w := HeldView(V(), top, p);
      JoinedMarked(V(), w, p, Held);
      BlocksLess(LiveMap(ch), LiveMap(ch), p);
      maxFast := SetAny(maxFast);
      size, w := Coalesce(p, w);
      FlagsFreed(old(maxFast), bins, w.bins, fast);
      MapShrunk(binmap, bins, w.bins);
      ch, bins := w.ch, w.bins;
      assert V() == w;
    }

    /** What `free` does after a large chunk has resulted: the fastbins are emptied, and a large top is trimmed. */
    method Slim()
      requires Ready() && Settled(ch) && base < end
      modifies this`sz, this`psz, this`fd, this`bk, this`top, this`heads, this`maxFast, this`brk, this`calls, this`ch,
               this`end, this`bins, this`fast
      ensures Ready() && Settled(ch) && LiveMap(ch) == old(LiveMap(ch))
      ensures var s := Sweep(old(Lists(ch, bins)), Flat(old(fast)));
              && bins == s.bins && |fast| == |old(fast)| && Emptied(fast)
              && Returned(s.ch, old(end), old(calls), Now(), pagesize)
    {
      hide Core, ChunkSize, PrevInuse, Granule, Word, HaveAny, HaveFast, SetFast, SetAny, ClearFast, MapOK, BlockOK,
           FlagsOK, Settled, Sweep, Flat, Spare, LiveMap;
      Tidy();
      HeaderFacts(V(), top);
      if ChunkSize(Rd(sz, top)) >= TRIM_THRESHOLD {
        SysTrim();
      }
    }

    /** `free` on a chunk that is in use, for a user or within an operation. */
    method FreeChunk(p: int)
      requires Ready() && SettledBut(ch, p) && p in ch && (ch[p].st.Live? || ch[p].st.Held?) && Bare(stored, p)
      modifies this`sz, this`psz, this`fd, this`bk, this`top, this`heads, this`maxFast, this`brk, this`calls, this`ch,
               this`end, this`bins, this`fast
      ensures Ready() && Settled(ch) && LiveMap(ch) == old(LiveMap(ch)) - {p}
      ensures Freed(old(Now()), Now(), pagesize, p)
    {
      hide Core, ChunkSize, PrevInuse, Granule, Word, HaveAny, HaveFast, SetFast, SetAny, ClearFast, MapOK, BlockOK,
           FlagsOK, Settled, SettledBut, Joined, JoinedSize, Sweep, Flat, Returned, Emptied, Freed;
      HeaderFacts(V(), p);
      FlagsBound(maxFast, bins, fast);
      FlagFacts(maxFast);
      TopUnique(V(), top, p);
      var size := ChunkSize(Rd(sz, p));
      if size <= maxFast {
        FreeFast(p, size);
        FreedFast(old(Now()), Now(), pagesize, p);
      } else {
        size := FreeJoin(p);
        ghost var m := Now();
        if size >= CONSOLIDATION_THRESHOLD {
          Slim();
        }
        FreedJoin(old(Now()), m, Now(), pagesize, p);
      }
    }

    /** Where a chunk of the given size belongs in bin i: small bins take it in front, large bins keep
        sizes from large to small.  A chunk no larger than the last one goes behind it. */
    method FindPlace(i: int, size: int, ghost w: View) returns (bck: int, fwd: int, ghost k: int)
      requires Core(w) && 2 <= i < NBINS && LegalSize(size) && BinIndex(size) == i && size < WORD32
      requires w.end - w.base < WORD32 && sz == w.sz && fd == w.fd && bk == w.bk && |w.bins| == NBINS
      ensures 0 <= k <= |w.bins[i]| && Fits(w.ch, w.bins[i], i, k, size)
      ensures bck == Node(Bin(i), w.bins[i], k - 1) && fwd == Node(Bin(i), w.bins[i], k)
      ensures k == Place(w.ch, w.bins[i], size)
    {
      hide Core, BinIndex, Granule, Word, PrevInuse, ChunkSize, Rd;
      RingFacts(w, i);
      bck := Bin(i);
      fwd := Rd(fd, bck);
      k := 0;
      if size < MIN_LARGE_SIZE {
        SmallBinFits(w, i, size);
      } else if fwd != bck {
        var n := |w.bins[i]|;
        BinElement(w, i, n - 1);
        if size < Rd(sz, Rd(bk, bck)) {
          fwd := bck;
          bck := Rd(bk, bck);
          k := n;
          SmallestFits(w, i, size);
        } else {
          BinElement(w, i, 0);
          while size + 1 < Rd(sz, fwd)
            invariant 0 <= k < n && fwd == w.bins[i][k] && fwd in w.ch && Rd(sz, fwd) == w.ch[fwd].size + 1
            invariant forall j :: 0 <= j < k ==> w.bins[i][j] in w.ch && w.ch[w.bins[i][j]].size > size
            decreases n - k
          {
            BinElement(w, i, k);
            if k + 1 < n { BinElement(w, i, k + 1); }
            fwd := Rd(fd, fwd);
            k := k + 1;
          }
          BinElement(w, i, k);
          bck := Rd(bk, fwd);
          RestFits(w, i, k, size);
          LargerIs(w.ch, w.bins[i], size, k);
        }
      }
    }

    /** A free chunk is taken whole from bin i. */
    method TakeWhole(victim: int, size: int, req: nat, ghost i: int, ghost k: int)
      requires Ready() && Settled(ch) && InBin(V(), i, k) && victim == bins[i][k] && size == ch[victim].size
      requires Request2Size(req) <= size < Request2Size(req) + MINSIZE
      modifies this`sz, this`fd, this`bk, this`ch, this`bins
      ensures Ready() && Settled(ch) && Taken(old(ch), ch, victim, size, req)
      ensures |old(bins)| == NBINS && Lists(ch, bins) == Take(old(Lists(ch, bins)), victim, Request2Size(req), req)
    {
      hide Core, ChunkSize, PrevInuse, Granule, Word, MapOK, Request2Size, BinIndex, Unlinked, FlagsOK, BlocksOK,
           TopOK, Settled, Taken, Shrunk, Take;
      ghost var w := WholeView(V(), i, k, req);
      TakeWholeIs(V(), w, i, k, Request2Size(req), req);
      var n := victim + size;
      sz := sz[n := SetLow(Rd(sz, n))];
      Unlink(victim, old(V()), i, k);
      AfterTake(old(V()), w, binmap, maxFast, i, k, size, req);
      ch, bins := w.ch, w.bins;
      assert V() == w;
    }

    /** A free chunk of bin i is split: its front part is taken, the rest becomes the only chunk of the
        unsorted queue, whose header is simply overwritten. */
    method TakeFront(victim: int, size: int, nb: int, req: nat, ghost i: int, ghost k: int)
      requires Ready() && Settled(ch) && InBin(V(), i, k) && victim == bins[i][k] && size == ch[victim].size
      requires nb == Request2Size(req) >= MINSIZE && Granule(nb) && size - nb >= MINSIZE
      requires i != 1 && bins[1] == []
      modifies this`sz, this`psz, this`fd, this`bk, this`ch, this`bins
      ensures Ready() && Settled(ch) && Taken(old(ch), ch, victim, nb, req)
      ensures |old(bins)| == NBINS && Lists(ch, bins) == Take(old(Lists(ch, bins)), victim, nb, req)
    {
      hide Core, ChunkSize, PrevInuse, Granule, Word, MapOK, Request2Size, BinIndex, Unlinked, FlagsOK, BlocksOK,
           TopOK, Settled, Taken, Shrunk, OnlyNode,
           CutHeads, SetFoot, Take;
      ghost var v := V();
      ghost var w := FrontView(v, i, k, nb, req);
      TakeFrontIs(v, w, i, k, nb, req);
      AfterTake(v, w, binmap, maxFast, i, k, nb, req);
      Unlink(victim, v, i, k);
      var rest := victim + nb;
      fd, bk := OnlyNode(fd, Bin(1), rest), OnlyNode(bk, Bin(1), rest);
      sz, psz := CutHeads(sz, victim, nb, size - nb), SetFoot(psz, rest, size - nb);
      ch, bins := w.ch, w.bins;
      assert V() == w;
    }

    /** The last remainder, alone in the unsorted queue, is split again; the header of the queue moves
        from it to what is left. */
    method TakeRemainder(victim: int, size: int, nb: int, req: nat)
      requires Ready() && Settled(ch) && |bins| == NBINS && bins[1] == [victim] && victim in ch
               && size == ch[victim].size
      requires nb == Request2Size(req) >= MINSIZE && Granule(nb) && size - nb >= MINSIZE
      modifies this`sz, this`psz, this`fd, this`bk, this`lastRemainder, this`ch, this`bins
      ensures Ready() && Settled(ch) && Taken(old(ch), ch, victim, nb, req)
      ensures Lists(ch, bins) == Take(old(Lists(ch, bins)), victim, nb, req) && lastRemainder == victim + nb
    {
      hide Core, ChunkSize, PrevInuse, Granule, Word, MapOK, Request2Size, BinIndex, FlagsOK, BlocksOK, TopOK,
           Settled, Taken, Shrunk, OnlyNode, CutHeads, SetFoot, Take;
      ghost var w := RemainderView(V(), nb, req);
      assert bins[1 := Without(bins[1], 0)][1 := [victim + nb]] == bins[1 := [victim + nb]];
      TakeFrontIs(V(), w, 1, 0, nb, req);
      var rest := victim + nb;
      fd, bk := OnlyNode(fd, Bin(1), rest), OnlyNode(bk, Bin(1), rest);
      lastRemainder := rest;
      sz, psz := CutHeads(sz, victim, nb, size - nb), SetFoot(psz, rest, size - nb);
      AfterTake(old(V()), w, binmap, maxFast, 1, 0, nb, req);
      ch, bins := w.ch, w.bins;
      assert V() == w;
    }

    /** The first chunk of fastbin i is reused. */
    method TakeFast(i: int, nb: int, req: nat) returns (victim: int)
      requires Ready() && Settled(ch) && 0 <= i < |fast| && fast[i] != [] && i == FastIndex(nb)
      requires nb == Request2Size(req) >= MINSIZE && Granule(nb)
      modifies this`heads, this`ch, this`fast
      ensures Ready() && Settled(ch) && Taken(old(ch), ch, victim, nb, req)
      ensures victim in old(ch) && old(ch)[victim] == Chunk(nb, Fast) && victim > 0
      ensures ch == old(ch)[victim := Chunk(nb, Live(req))]
      ensures victim == old(heads[i]) == old(fast[i])[0] && fast == old(fast)[i := old(fast[i])[1..]]
    {
      hide Core, ChunkSize, PrevInuse, Granule, Word, MapOK, Request2Size, BinIndex, BlocksOK, TopOK, Settled, Taken;
      ghost var w := FastView(V(), i, nb, req);
      CoreShape(V());
      HeaderFacts(V(), heads[i]);
      victim := heads[i];
      heads := heads[i := Rd(fd, victim)];
      AfterFast(old(V()), w, maxFast, victim, nb, req);
      ch, fast := w.ch, w.fast;
      assert V() == w;
    }

    /** The block is cut from the front of top. */
    method TakeTop(nb: int, req: nat) returns (victim: int)
      requires Ready() && Settled(ch) && base < end && ch[top].size >= nb + MINSIZE
      requires nb == Request2Size(req) >= MINSIZE && Granule(nb)
      modifies this`sz, this`top, this`ch
      ensures Ready() && Settled(ch) && Taken(old(ch), ch, victim, nb, req) && victim == old(top) && top == victim + nb
      ensures victim in old(ch)
              && ch == old(ch)[victim := Chunk(nb, Live(req))][top := Chunk(old(ch)[victim].size - nb, Top)]
    {
      hide Core, ChunkSize, PrevInuse, Granule, Word, MapOK, Request2Size, BinIndex, BlocksOK, TopOK, Settled, Taken,
           FlagsOK, CutHeads;
      TopThere(V(), top);
      HeaderFacts(V(), top);
      ghost var w := TopView(V(), top, nb, req);
      victim := top;
      var size := ChunkSize(Rd(sz, victim));
      top := victim + nb;
      sz := CutHeads(sz, victim, nb, size - nb);
      AfterTop(old(V()), w, victim, nb, req);
      ch := w.ch;
      assert V() == w;
    }

    /** The last chunk of the unsorted queue moves to the bin of its size. */
    method Rebin(victim: int, size: int)
      requires Ready() && Settled(ch) && |bins| == NBINS && bins[1] != [] && victim == bins[1][|bins[1]| - 1]
      requires victim in ch && size == ch[victim].size && size >= 0
      modifies this`fd, this`bk, this`binmap, this`ch, this`bins
      ensures Ready() && Settled(ch) && Rebinned(old(ch), ch) && LiveMap(ch) == old(LiveMap(ch))
      ensures |bins| == NBINS && bins[1] == old(bins[1])[..|old(bins[1])| - 1] && 2 <= BinIndex(size) < NBINS
      ensures Lists(ch, bins) == Shelve(old(Lists(ch, bins)))
      ensures |old(binmap)| == 4 && binmap == MarkBin(old(binmap), BinIndex(size))
      ensures forall j :: 2 <= j < NBINS && j != BinIndex(size) ==> bins[j] == old(bins)[j]
    {
      hide Core, ChunkSize, PrevInuse, Granule, Word, MapOK, BinIndex, BlocksOK, TopOK, Settled, FlagsOK, Unlinked,
           Rebinned, MarkBin, Node, Place, InsertAt, Shelve;
      ghost var last := |bins[1]| - 1;
      ghost var v := V();
      ghost var u := OffQueue(v, last);
      Unlink(victim, v, 1, last);
      var i := BinIndex(size);
      var bck, fwd;
      ghost var k;
      bck, fwd, k := FindPlace(i, size, u);
      ghost var w := OnShelf(v, u, i, k, victim);
      MarkPlaced(binmap, maxFast, v, w, i);
      binmap := MarkBin(binmap, i);
      fd, bk := fd[victim := fwd][bck := victim], bk[victim := bck][fwd := victim];
      ShelveIs(ListsOf(v), ListsOf(w), victim, size);
      ch, bins := w.ch, w.bins;
      assert V() == w;
    }

    /** One round of the loop over the unsorted queue: its last chunk is taken on an exact fit, or if it is the last
        remainder and alone; otherwise it moves to its bin. */
    method Inspect(nb: int, req: nat) returns (victim: int, ghost how: Origin)
      requires Ready() && Settled(ch) && |bins| == NBINS && nb == Request2Size(req) && LegalSize(nb) && nb < WORD32
      requires nb < MIN_LARGE_SIZE ==> bins[BinIndex(nb)] == [] && 2 <= BinIndex(nb) < NBINS
      requires bins[1] != []
      modifies this`sz, this`psz, this`fd, this`bk, this`binmap, this`lastRemainder, this`ch, this`bins
      ensures Ready() && Settled(ch) && |bins| == NBINS
      ensures var queue := old(bins[1]); var c := queue[|queue| - 1];
              && c in old(ch) && old(ch)[c].st.Binned? && var size := old(ch)[c].size;
              if victim != 0 then
                && victim == c && Lists(ch, bins) == Take(old(Lists(ch, bins)), c, nb, req)
                && Taken(old(ch), ch, c, nb, req) && lastRemainder == Remainder(size, c, nb, old(lastRemainder))
                && if how == FromRemainder then queue == [c] && c == old(lastRemainder) && FromRest(old(ch), nb, c)
                   else how == FromBin && size == nb
              else
                && Lists(ch, bins) == Shelve(old(Lists(ch, bins))) && bins[1] == queue[..|queue| - 1]
                && Rebinned(old(ch), ch) && LiveMap(ch) == old(LiveMap(ch)) && lastRemainder == old(lastRemainder)
                && (nb < MIN_LARGE_SIZE ==> bins[BinIndex(nb)] == []) && size != nb
                && !(nb < MIN_LARGE_SIZE && queue == [c] && c == lastRemainder && size > nb + MINSIZE)
    {
      hide Core, ChunkSize, PrevInuse, Granule, Word, MapOK, BinIndex, BlocksOK, TopOK, Settled, FlagsOK, Unlinked,
           Rebinned, Request2Size, Taken, LegalSize, NoExactFit, LiveMap, Rd, Take, Shelve;
      how := Nowhere;
      RingFacts(V(), 1);
      NormalSize(nb);
      victim := Rd(bk, Bin(1));
      ghost var last := |bins[1]| - 1;
      BinElement(V(), 1, last);
      var bck := Rd(bk, victim);
      var size := ChunkSize(Rd(sz, victim));
      if nb < MIN_LARGE_SIZE && bck == Bin(1) && victim == lastRemainder && size > nb + MINSIZE {
        AloneInQueue(V(), last);
        RemainderServes(V(), nb);
        TakeRemainder(victim, size, nb, req);
        how := FromRemainder;
        CoreShape(V());
        return;
      }
      if size == nb {
        TakeWhole(victim, size, req, 1, last);
        how := FromBin;
        CoreShape(V());
        return;
      }
      SizesApart(nb, size);
      Rebin(victim, size);
      victim := 0;
    }

    /** The loop over the unsorted queue.  Without a hit, the queue ends up empty. */
    method SortQueue(nb: int, req: nat) returns (victim: int, ghost how: Origin, ghost n: nat)
      requires Ready() && Settled(ch) && |bins| == NBINS && nb == Request2Size(req) && LegalSize(nb) && nb < WORD32
      requires nb < MIN_LARGE_SIZE ==> bins[BinIndex(nb)] == [] && 2 <= BinIndex(nb) < NBINS
      modifies this`sz, this`psz, this`fd, this`bk, this`binmap, this`lastRemainder, this`ch, this`bins
      ensures Ready() && Settled(ch) && |bins| == NBINS
      ensures victim != 0 ==> Served(old(ch), ch, victim, nb, req, how) && (how == FromBin || how == FromRemainder)
      ensures victim != 0 && how == FromRemainder <==> old(RemainderDue(V(), lastRemainder, nb))
      ensures victim != 0 && how == FromRemainder ==> victim == old(lastRemainder)
      ensures Searched(old(Lists(ch, bins)), Lists(ch, bins), old(lastRemainder), lastRemainder, victim, nb, req, n)
      ensures victim != 0 ==> Hit(old(ch), Lists(ch, bins), old(lastRemainder), lastRemainder, victim, nb, req)
      ensures victim == 0 ==> n == |old(bins[1])| && Passed(old(ch), old(bins[1]), n, nb)
      ensures victim == 0 ==> bins[1] == [] && Rebinned(old(ch), ch) && LiveMap(ch) == old(LiveMap(ch))
      ensures victim == 0 && nb < MIN_LARGE_SIZE ==> bins[BinIndex(nb)] == [] && 2 <= BinIndex(nb) < NBINS
    {
      hide Core, ChunkSize, PrevInuse, Granule, Word, MapOK, BinIndex, BlocksOK, TopOK, Settled, FlagsOK, Unlinked,
           Rebinned, Request2Size, Taken, Served, LegalSize, RemainderDue, FromRest, NoExactFit, LiveMap, Rd, Take,
           Shelve, Emptying, Passed, Found, Remainder, Searched, Hit;
      how, n := Nowhere, 0;
      victim := 0;
      ghost var v, s, queue0 := V(), Lists(ch, bins), bins[1];
      EmptyQueue(V(), lastRemainder, nb);
      RingFacts(V(), 1);
      RebinnedRefl(ch);
      NoneMoved(s, nb);
      while Rd(bk, Bin(1)) != Bin(1)
        invariant Ready() && Settled(ch) && |bins| == NBINS && Rebinned(old(ch), ch) && LiveMap(ch) == old(LiveMap(ch))
        invariant nb < MIN_LARGE_SIZE ==> bins[BinIndex(nb)] == [] && 2 <= BinIndex(nb) < NBINS
        invariant Rd(bk, Bin(1)) == Bin(1) <==> bins[1] == []
        invariant n <= |queue0| && bins[1] == queue0[..|queue0| - n] && lastRemainder == old(lastRemainder)
        invariant Lists(ch, bins) == Emptying(s, n) && Passed(old(ch), queue0, n, nb) && victim == 0
        invariant bins[1] == [] ==> !old(RemainderDue(V(), lastRemainder, nb))
        decreases |bins[1]|
      {
        ghost var pool, queue := ch, bins[1];
        victim, how := Inspect(nb, req);
        if victim != 0 {
          QueueHit(v, pool, ch, old(lastRemainder), victim, nb, req, n, how);
          return;
        }
        if |queue| == 1 { RemainderPassed(old(V()), pool, queue, queue[0], lastRemainder, nb); }
        RebinnedTrans(old(ch), pool, ch);
        OneMoreMoved(s, pool, nb, n);
        n := n + 1;
        RingFacts(V(), 1);
      }
      NotFound(s, lastRemainder, nb, req, n);
    }

    /** A chunk that fits is taken whole, or split if enough is left over. */
    method TakeFit(victim: int, nb: int, req: nat, ghost i: int, ghost k: int)
      requires Ready() && Settled(ch) && InBin(V(), i, k) && victim == bins[i][k] && i >= 2 && bins[1] == []
      requires nb == Request2Size(req) >= MINSIZE && Granule(nb) && ch[victim].size >= nb && BestFit(ch, nb, victim)
      modifies this`sz, this`psz, this`fd, this`bk, this`ch, this`bins
      ensures Ready() && Settled(ch) && Served(old(ch), ch, victim, nb, req, FromBin)
      ensures Lists(ch, bins) == Take(old(Lists(ch, bins)), victim, nb, req)
    {
      hide Core, ChunkSize, PrevInuse, Granule, Word, MapOK, BinIndex, BlocksOK, TopOK, Settled, FlagsOK,
           Request2Size, Taken, Take;
      HeaderFacts(V(), victim);
      var size := ChunkSize(Rd(sz, victim));
      ghost var pool := ch;
      if size - nb < MINSIZE {
        TakeWhole(victim, size, req, i, k);
        TakenHere(pool, ch, victim, size, req);
      } else {
        TakeFront(victim, size, nb, req, i, k);
        TakenHere(pool, ch, victim, nb, req);
      }
    }

    /** For a large request, the bin of its size is scanned from its smallest chunk up. */
    method ScanBin(nb: int, req: nat, i: int) returns (victim: int)
      requires Ready() && Settled(ch) && |bins| == NBINS && bins[1] == [] && nb == Request2Size(req) && LegalSize(nb)
               && nb < WORD32
      requires i == BinIndex(nb) && 2 <= i < NBINS && nb >= MIN_LARGE_SIZE
      modifies this`sz, this`psz, this`fd, this`bk, this`ch, this`bins
      ensures Ready() && Settled(ch)
      ensures victim != 0 ==>
                && Served(old(ch), ch, victim, nb, req, FromBin) && LastFit(old(ch), old(bins[i]), victim, nb)
                && BestFit(old(ch), nb, victim) && |old(bins)| == NBINS
                && lastRemainder == Remainder(old(ch)[victim].size, victim, nb, lastRemainder)
                && Lists(ch, bins) == Take(old(Lists(ch, bins)), victim, nb, req)
      ensures victim == 0 ==> V() == old(V()) && |bins| == NBINS && Unfit(ch, bins[i], nb, 0)
    {
      hide Core, ChunkSize, PrevInuse, Granule, Word, MapOK, BinIndex, BlocksOK, TopOK, Settled, FlagsOK,
           Request2Size, Taken, Served, BestFit, LegalSize, Rd, Bin, LastFit, Take;
      RingFacts(V(), i);
      NormalSize(nb);
      ghost var k := |bins[i]| - 1;
      victim := Rd(bk, Bin(i));
      while victim != Bin(i)
        invariant V() == old(V()) && |bins| == NBINS && Ready() && Settled(ch)
        invariant -1 <= k < |bins[i]| && victim == Node(Bin(i), bins[i], k)
        invariant victim == Bin(i) <==> k == -1
        invariant Unfit(ch, bins[i], nb, k + 1)
        decreases k
      {
        BinElement(V(), i, k);
        var size := ChunkSize(Rd(sz, victim));
        if size >= nb {
          LowerBinsUnfit(V(), nb, i);
          BestFitAt(V(), nb, i, k);
          LastFitAt(ch, bins[i], nb, k);
          TakeFit(victim, nb, req, i, k);
          return;
        }
        victim := Rd(bk, victim);
        k := k - 1;
        if k >= 0 { BinElement(V(), i, k); }
      }
      victim := 0;
    }

    /** The higher bins are searched with the bitmap; the last chunk of the first non-empty one is taken. */
    method SearchBins(nb: int, req: nat, i: int) returns (victim: int)
      requires Ready() && Settled(ch) && |bins| == NBINS && bins[1] == [] && nb == Request2Size(req) && LegalSize(nb)
               && nb < WORD32
      requires i == BinIndex(nb) && 2 <= i < NBINS && Unfit(ch, bins[i], nb, 0)
      modifies this`sz, this`psz, this`fd, this`bk, this`binmap, this`lastRemainder, this`ch, this`bins
      ensures Ready() && Settled(ch)
      ensures victim != 0 ==>
                && Served(old(ch), ch, victim, nb, req, FromBin) && BestFit(old(ch), nb, victim)
                && Lists(ch, bins) == Take(old(Lists(ch, bins)), victim, nb, req)
                && lastRemainder == Remainder(old(ch)[victim].size, victim, nb, old(lastRemainder))
      ensures victim != 0 ==>
                exists b :: i < b < NBINS && LastFit(old(ch), old(bins)[b], victim, nb)
                            && MarksCleared(old(binmap), binmap, i + 1, b)
      ensures victim == 0 ==> V() == old(V()) && NoFit(ch, nb) && lastRemainder == old(lastRemainder)
      ensures victim == 0 ==> MarksCleared(old(binmap), binmap, i + 1, NBINS)
    {
      hide Core, ChunkSize, PrevInuse, Granule, Word, MapOK, BinIndex, BlocksOK, TopOK, Settled, FlagsOK,
           Request2Size, Taken, Served, LegalSize, Rd, Bin, Rings, LastFit, Take, Cleared;
      NormalSize(nb);
      LowerBinsUnfit(V(), nb, i);
      SearchReady(V());
      var b;
      binmap, b := FindBin(binmap, fd, bk, i + 1, bins);
      HigherUnfit(V(), nb, i, b);
      if b == NBINS {
        NothingFits(V(), nb);
        return 0;
      }
      RingFacts(V(), b);
      ghost var k := |bins[b]| - 1;
      BinElement(V(), b, k);
      victim := Rd(bk, Bin(b));
      BinsOrderSizes(nb, ch[victim].size);
      BestFitAt(V(), nb, b, k);
      LastFitAt(ch, bins[b], nb, k);
      var split := ChunkSize(Rd(sz, victim)) - nb >= MINSIZE;
      TakeFit(victim, nb, req, b, k);
      if split && nb < MIN_LARGE_SIZE {
        lastRemainder := victim + nb;
      }
    }

    /** The search through the bins of sizes, from the bin of nb bytes on. */
    method SearchShelves(nb: int, req: nat, i: int) returns (victim: int, ghost b: int)
      requires Ready() && Settled(ch) && |bins| == NBINS && bins[1] == [] && nb == Request2Size(req) && LegalSize(nb)
               && nb < WORD32
      requires i == BinIndex(nb) && 2 <= i < NBINS && (nb < MIN_LARGE_SIZE ==> bins[i] == [])
      modifies this`sz, this`psz, this`fd, this`bk, this`binmap, this`lastRemainder, this`ch, this`bins
      ensures Ready() && Settled(ch)
      ensures victim != 0 ==>
                && Served(old(ch), ch, victim, nb, req, FromBin) && BestFit(old(ch), nb, victim)
                && Lists(ch, bins) == Take(old(Lists(ch, bins)), victim, nb, req)
                && lastRemainder == Remainder(old(ch)[victim].size, victim, nb, old(lastRemainder))
                && i <= b < NBINS && LastFit(old(ch), old(bins)[b], victim, nb)
      ensures victim == 0 ==> V() == old(V()) && NoFit(ch, nb) && lastRemainder == old(lastRemainder)
    {
      hide Core, MapOK, BinIndex, BlocksOK, TopOK, Settled, FlagsOK, Request2Size, Served, LegalSize, NoFit, Take,
           LastFit, Remainder;
      b := i;
      if nb >= MIN_LARGE_SIZE {
        victim := ScanBin(nb, req, i);
        if victim != 0 { return; }
      }
      victim := SearchBins(nb, req, i);
      if victim != 0 {
        b :| i < b < NBINS && LastFit(old(ch), old(bins)[b], victim, nb);
      }
    }

    /** The search of `malloc` through everything that is free, apart from the fastbins and top. */
    method SearchPool(nb: int, req: nat) returns (victim: int, ghost how: Origin, ghost n: nat)
      requires Ready() && Settled(ch) && |bins| == NBINS && nb == Request2Size(req) && LegalSize(nb) && nb < WORD32
      requires nb < MIN_LARGE_SIZE ==> 2 <= BinIndex(nb) < NBINS && bins[BinIndex(nb)] == []
      modifies this`sz, this`psz, this`fd, this`bk, this`binmap, this`lastRemainder, this`ch, this`bins
      ensures Ready() && Settled(ch)
      ensures victim != 0 ==> Served(old(ch), ch, victim, nb, req, how) && (how == FromBin || how == FromRemainder)
      ensures victim != 0 && how == FromRemainder <==> old(RemainderDue(V(), lastRemainder, nb))
      ensures victim != 0 && how == FromRemainder ==> victim == old(lastRemainder)
      ensures Searched(old(Lists(ch, bins)), Lists(ch, bins), old(lastRemainder), lastRemainder, victim, nb, req, n)
      ensures victim != 0 ==> Hit(old(ch), Lists(ch, bins), old(lastRemainder), lastRemainder, victim, nb, req)
      ensures victim == 0 ==> Rebinned(old(ch), ch) && LiveMap(ch) == old(LiveMap(ch)) && NoFit(old(ch), nb)
      ensures victim == 0 ==> |bins| == NBINS && bins[1] == [] && lastRemainder == old(lastRemainder)
    {
      hide Core, ChunkSize, PrevInuse, Granule, Word, MapOK, BinIndex, BlocksOK, TopOK, Settled, FlagsOK,
           Request2Size, Taken,
           Served, BestFit, LegalSize, Rd, Bin, Rings, Rebinned, NoFit, RemainderDue, Take, Emptying, Passed, LastFit,
           Searched, Remainder, Hit;
      BinIndexUsable(nb);
      var i := BinIndex(nb);
      ghost var s := Lists(ch, bins);
      victim, how, n := SortQueue(nb, req);
      if victim != 0 { return; }
      ghost var pool, t, lr := ch, Lists(ch, bins), lastRemainder;
      NotFoundIs(s, t, old(lastRemainder), lr, nb, req, n);
      how := FromBin;
      ghost var b;
      victim, b := SearchShelves(nb, req, i);
      if victim != 0 {
        ServedRebinned(old(ch), pool, ch, victim, nb, req);
        BinHit(s, t, lr, victim, nb, req, b);
      } else {
        NoFitRebinned(old(ch), ch, nb);
      }
    }

    /** The block is recorded with the request it was made for; both requests have the same padded size. */
    ghost method Relabel(p: int, nb: int, asked: nat, req: nat, ch0: Chunks, ch1: Chunks, pool: Chunks, how: Origin)
      requires Ready() && Settled(ch) && Chosen(ch1, pool, ch, p, nb, asked, how) && LiveMap(ch1) == LiveMap(ch0)
      requires Request2Size(asked) == Request2Size(req) && how != FromFast && NoFastFit(ch0, nb)
      modifies this`ch
      ensures Ready() && Settled(ch) && Chosen(ch0, pool, ch, p, nb, req, how)
      ensures p in old(ch) && old(ch)[p].st == Live(asked) && ch == Mark(old(ch), p, Live(req))
    {
      hide Core, Granule, Word, MapOK, FlagsOK, Request2Size, TopOK, BlocksOK, Settled, Chosen;
      Relabelled(V(), top, p, nb, asked, req, ch0, ch1, pool, how);
      ch := Mark(ch, p, Live(req));
      assert V() == old(V()).(ch := ch);
    }

    constructor (brk0: int, limit0: int, page: int)
      requires 0 < brk0 <= limit0 < brk0 + WORD32 && Word(brk0) && page > 0 && Granule(page)
      ensures Valid() && ch == map[] && start == brk0 && limit == limit0 && pagesize == page && calls == []
    {
      sz, psz, fd, bk := map[], map[], map[], map[];
      top, lastRemainder, maxFast := 0, 0, 0;
      heads := seq(NFASTBINS, i => 0);
      binmap := [0, 0, 0, 0];
      brk, start, limit, pagesize := brk0, brk0, limit0, page;
      stored, calls := map[], [];
      ch, base, end := map[], 0, 0;
      bins, fast := seq(NBINS, i => []), seq(NFASTBINS, i => []);
    }

    /** `malloc_init_state`: every bin becomes an empty ring, top the unusable dummy. */
    method InitState()
      requires Blank()
      modifies this`fd, this`bk, this`top, this`maxFast
      ensures Ready() && Settled(ch) && base == end && maxFast == MAX_FAST && !HaveAny(maxFast)
    {
      hide Granule, Word, Marked;
      var i := 1;
      while i < NBINS
        invariant 1 <= i <= NBINS
        invariant forall j :: 1 <= j < i ==> Rd(fd, Bin(j)) == Bin(j) && Rd(bk, Bin(j)) == Bin(j)
      {
        fd, bk := fd[Bin(i) := Bin(i)], bk[Bin(i) := Bin(i)];
        i := i + 1;
      }
      maxFast := MAX_FAST;
      top := Bin(1);
      forall j {:trigger RingAt(fd, bk, bins, j)} | 1 <= j < |bins| ensures RingAt(fd, bk, bins, j) {
        assert bins[j] == [];
      }
      EmptyMap();
      EmptyCore(V());
    }

    /** `MORECORE`: the system either refuses or moves the break by the bytes asked for. */
    method Morecore(size: int) returns (r: int)
      requires size >= 0 && brk > 0
      modifies this`brk, this`calls
      ensures r == -1 ==> brk == old(brk)
      ensures r != -1 ==> r == old(brk) && brk == old(brk) + size <= limit
      ensures calls == old(calls) + [Asked(size, r != -1)]
    {
      r := -1;
      if brk + size <= limit {
        if * {
          r := brk;
          brk := brk + size;
        }
      }
      calls := calls + [Asked(size, r != -1)];
    }

    /** The start of the first memory is aligned, and a second request completes the last page. */
    method AlignFirst(r: int, size0: int) returns (aligned: int, size: int)
      requires 0 < r && Word(r) && Granule(size0) && size0 >= 2 * MINSIZE && brk == r + size0 <= limit && pagesize > 0
               && Granule(pagesize)
      modifies this`brk, this`calls
      ensures old(brk) <= brk <= limit && Word(brk)
      ensures r <= aligned < r + 16 && Granule(aligned) && size == brk - aligned >= MINSIZE && Word(size)
      ensures |calls| > 0 && calls[|calls| - 1].Asked? && var granted := calls[|calls| - 1].granted;
              var more := RoundUp(aligned + size0, pagesize) - old(brk);
              calls == old(calls) + [Asked(more, granted)] && brk == old(brk) + if granted then more else 0
    {
      hide Granule, Word, RoundUp;
      WordSum(r, size0);
      AlignUp(r);
      var misalign := (r + 16) % 16;
      var correction := if misalign > 0 then 16 - misalign else 0;
      aligned := r + correction;
      var ending := r + size0 + correction;
      RoundUpFacts(ending, pagesize);
      correction := correction + (RoundUp(ending, pagesize) - ending);
      var snd := Morecore(correction);
      if snd == -1 {
        size := brk - aligned;
      } else {
        WordSum(0, brk);
        size := snd - aligned + correction;
      }
      TopWords(aligned, brk);
    }

    /** The memory part of `sYSMALLOc`: new memory extends top, or becomes top on the first call. */
    method ExtendTop(nb: int) returns (ok: bool)
      requires Ready() && Settled(ch) && nb >= MINSIZE && TopSmall(V(), top, nb)
      modifies this`sz, this`top, this`brk, this`calls, this`ch, this`base, this`end
      ensures Ready() && Settled(ch) && LiveMap(ch) == old(LiveMap(ch)) && (!ok ==> V() == old(V()) && top == old(top))
      ensures old(base < end) ==> top == old(top)
      ensures Obtained(old(Now()), Now(), pagesize, nb, old(top), old(brk), ok)
      ensures |calls| > |old(calls)| && (ok ==> base < end)
    {
      hide Core, ChunkSize, PrevInuse, Granule, Word, MapOK, FlagsOK, BlocksOK, RoundUp, TopOK, Settled, LiveMap,
           FirstMemory;
      TopRoom(V(), top);
      TopOrNone(V(), top);
      var oldSize := ChunkSize(Rd(sz, top));
      var oldEnd := top + oldSize;
      var size := RoundUp(nb + MINSIZE - oldSize, pagesize);
      RoundUpFacts(nb + MINSIZE - oldSize, pagesize);
      var r := Morecore(size);
      ok := r != -1;
      if ok && r == oldEnd {
        WordSum(r, size);
        TopWords(top, brk);
        SetTop(size + oldSize);
      } else if ok {
        StartTop(r, size, old(calls));
      }
    }

    /** The first memory, of `size` bytes from r on, becomes the first top. */
    method StartTop(r: int, size: int, ghost calls0: seq<Call>)
      requires Core(V()) && ch == map[] && MapOK(binmap, bins) && FlagsOK(maxFast, bins, fast) && BlocksOK(LiveMap(ch))
      requires 0 < start <= r && brk == r + size <= limit < start + WORD32 && Word(r) && pagesize > 0
               && Granule(pagesize)
      requires Granule(size) && size >= 2 * MINSIZE && calls == calls0 + [Asked(size, true)]
      modifies this`sz, this`top, this`brk, this`calls, this`ch, this`base, this`end
      ensures Ready() && Settled(ch) && LiveMap(ch) == old(LiveMap(ch))
      ensures FirstMemory(r, size, pagesize, calls0, Now()) && base < end && |calls| > |calls0|
    {
      hide Core, Granule, Word, MapOK, FlagsOK, BlocksOK, TopOK, Settled, LiveMap, WithTop;
      var aligned, t := AlignFirst(r, size);
      ghost var w := WithTop(old(V()), aligned, t);
      FreshTop(old(V()), aligned, t);
      WithTopIs(old(V()), aligned, t);
      top := aligned;
      sz := sz[top := t + 1];
      ch, base, end := w.ch, aligned, brk;
      assert V() == w;
    }

    /** The block is cut from top if top is large enough. */
    method CutTop(nb: int, req: nat) returns (victim: int)
      requires Ready() && Settled(ch) && nb == Request2Size(req) >= MINSIZE && Granule(nb)
      modifies this`sz, this`top, this`ch
      ensures Ready() && Settled(ch)
      ensures victim == 0 ==> V() == old(V()) && top == old(top) && TopSmall(V(), top, nb)
      ensures victim != 0 ==> Taken(old(ch), ch, victim, nb, req) && old(base < end) && victim == old(top)
      ensures victim != 0 ==> old(top in ch && ch[top].st.Top? && ch[top].size >= nb + MINSIZE)
      ensures victim != 0 ==>
                ch == old(ch)[victim := Chunk(nb, Live(req))][victim + nb := Chunk(end - victim - nb, Top)]
    {
      hide Core, PrevInuse, Granule, Word, MapOK, FlagsOK, BlocksOK, Settled, Taken, Request2Size;
      victim := 0;
      if base < end {
        HeaderFacts(V(), top);
        TopEnds(V(), top);
      }
      var size := ChunkSize(Rd(sz, top));
      if size >= nb + MINSIZE {
        victim := TakeTop(nb, req);
      }
    }

    /** `sYSMALLOc`: if fastbins hold chunks, they are consolidated and the request is made again; then
        fastbins are empty, so this happens at most once.  Otherwise top is extended. */
    method SysMalloc(nb: int, req: nat) returns (victim: int, ghost how: Origin, ghost pool: Chunks)
      requires Ready() && Settled(ch) && nb == Request2Size(req) && LegalSize(nb) && nb < WORD32 && NoFit(ch, nb)
      requires nb >= MIN_LARGE_SIZE ==> !HaveFast(maxFast)
      requires TopSmall(V(), top, nb) && NoFastFit(ch, nb) && |bins| == NBINS && bins[1] == []
      modifies this`sz, this`psz, this`fd, this`bk, this`top, this`heads, this`maxFast, this`binmap, this`lastRemainder,
               this`brk, this`calls, this`ch, this`base, this`end, this`bins, this`fast
      decreases if HaveFast(maxFast) then 1 else 0, 0
      ensures Ready() && Settled(ch) && PoolOf(old(ch), old(base), old(end), pool, nb) && NoFast(pool)
      ensures victim != 0 ==> Chosen(old(ch), pool, ch, victim, nb, req, how) && how != FromFast
      ensures victim != 0 && how == FromRemainder ==> victim == old(lastRemainder)
      ensures victim == 0 ==> LiveMap(ch) == old(LiveMap(ch)) && NoFit(pool, nb) && TopSmall(V(), top, nb)
      ensures victim == 0 ==> lastRemainder == old(lastRemainder)
      ensures Malloced(old(Now()), Now(), pagesize, pool, victim, nb, req, how)
      ensures calls == old(calls) ==> brk == old(brk)
      ensures victim != 0 && !old(HaveFast(maxFast)) ==> how == FromTop
    {
      hide Core, ChunkSize, PrevInuse, Granule, Word, MapOK, BinIndex, BlocksOK, TopOK, Settled, FlagsOK,
           Request2Size, Taken,
           Served, BestFit, LegalSize, Rd, Bin, NoFit, HaveFast, HaveAny, Chosen, NoFast, Blank, PoolOf, OutOfRange,
             Covers, TopSmall,
           NoFastFit, Available, OnTop, Malloced, Obtained, Emptied, Sweep, Flat;
      NormalSize(nb);
      Unavailable(V(), top, nb);
      pool := ch;
      ghost var a := Now();
      if HaveFast(maxFast) {
        Consolidate();
        ghost var ch1 := ch;
        ghost var c := Now();
        AllEmptied(fast);
        RetryAsksForSame(nb);
        NoFastChunks(V(), maxFast);
        var mem;
        InRange(nb - ALIGN_MASK);
        mem, how, pool := Malloc(nb - ALIGN_MASK);
        PoolAfterConsolidate(old(ch), ch1, old(base), old(end), pool, nb);
        victim := 0;
        ghost var b := Now();
        if mem != 0 {
          victim := mem - 16;
          NotFromFast(ch1, pool, ch, victim, nb, nb - ALIGN_MASK, how);
          Relabel(victim, nb, nb - ALIGN_MASK, req, old(ch), ch1, pool, how);
        }
        MallocedRetry(a, c, b, Now(), pagesize, pool, victim, nb, nb - ALIGN_MASK, req, how);
        return;
      }
      NothingToSweep(maxFast, bins, fast, Lists(ch, bins));
      NoFastChunks(V(), maxFast);
      PoolItself(V(), nb);
      TopHere(V(), top);
      how := Nowhere;
      victim := 0;
      var ok := ExtendTop(nb);
      ghost var m, top1 := Now(), top;
      if ok {
        ghost var ch1 := ch;
        victim := CutTop(nb, req);
        if victim != 0 {
          how := FromTop;
          ChosenTop(old(ch), ch1, pool, ch, victim, nb, req);
        }
      }
      MallocedAsk(a, m, Now(), pagesize, old(top), old(brk), ok, top1, victim, nb, req);
    }

    /** A chunk of just the right size, from its fastbin or its small bin. */
    method FromFixed(nb: int, req: nat) returns (victim: int, ghost how: Origin)
      requires Ready() && Settled(ch) && nb == Request2Size(req) && LegalSize(nb) && nb < WORD32
      modifies this`sz, this`fd, this`bk, this`heads, this`ch, this`bins, this`fast
      ensures Ready() && Settled(ch)
      ensures victim == 0 ==> V() == old(V()) && !FastHit(V(), nb) && !SmallHit(V(), nb) && NoFastFit(ch, nb)
      ensures victim != 0 ==>
                && PoolOf(old(ch), base, end, old(ch), nb) && Chosen(old(ch), old(ch), ch, victim, nb, req, how)
                && (how == FromFast || (how == FromBin && !old(RemainderDue(V(), lastRemainder, nb))))
                && (how == FromFast ==> old(Newest(V(), nb, victim)) && !NoFastFit(old(ch), nb))
                && Malloced(old(Now()), Now(), pagesize, old(ch), victim, nb, req, how)
      ensures victim != 0 ==> Looked(old(Now()), Now(), victim, nb, req)
    {
      hide Core, ChunkSize, PrevInuse, Granule, Word, MapOK, BinIndex, BlocksOK, TopOK, Settled, FlagsOK,
           Request2Size, Taken, Served, BestFit, LegalSize, Rd, Bin, HaveFast, HaveAny, Chosen, PoolOf, FastIndex,
           NoFastFit, Available, RemainderDue, Newest, NoExactFit, LookedThrough, Looked, Malloced, Take;
      NormalSize(nb);
      CoreShape(V());
      FlagsBound(maxFast, bins, fast);
      FlagFacts(maxFast);
      BinIndexUsable(nb);
      SmallIndex(nb);
      victim, how := 0, Nowhere;
      if nb <= maxFast {
        FastRange(nb);
        FastHead(V(), FastIndex(nb));
        if heads[FastIndex(nb)] != 0 {
          victim := TakeFast(FastIndex(nb), nb, req);
          how := FromFast;
          FastFits(old(ch), victim, nb);
          NewestAt(old(V()), nb, victim);
          FastServes(old(ch), victim, nb);
          PoolItself(old(V()), nb);
          ChosenFast(old(ch), ch, victim, nb, req);
          LookedFast(old(Now()), Now(), pagesize, victim, nb, req);
          LookedFor(old(Now()), Now(), victim, nb, req, 0);
          return;
        }
      }
      NoneFast(V(), maxFast, nb);
      if nb < MIN_LARGE_SIZE {
        var i := BinIndex(nb);
        RingFacts(V(), i);
        var last := Rd(bk, Bin(i));
        if last != Bin(i) {
          victim := last;
          ghost var k := |bins[i]| - 1;
          BinElement(V(), i, k);
          SmallBinSize(nb, ch[victim].size);
          TakeWhole(victim, nb, req, i, k);
          how := FromBin;
          ChosenSmall(old(ch), ch, victim, nb, req);
          ExactThere(old(ch), victim, nb);
          RemainderNotDue(old(V()), old(lastRemainder), nb);
          BinServes(old(ch), ch, victim, nb, req, FromBin);
          PoolItself(old(V()), nb);
          LookedSmall(old(Now()), Now(), pagesize, victim, nb, req);
          LookedFor(old(Now()), Now(), victim, nb, req, 0);
        }
      }
    }

    /** Without a chunk of just the right size the bins are searched, for a large request after the fastbins have been
        emptied. */
    method FromBins(nb: int, req: nat) returns (victim: int, ghost how: Origin, ghost pool: Chunks)
      requires Ready() && Settled(ch) && nb == Request2Size(req) && LegalSize(nb) && nb < WORD32
      requires !FastHit(V(), nb) && !SmallHit(V(), nb) && NoFastFit(ch, nb)
      modifies this`sz, this`psz, this`fd, this`bk, this`top, this`heads, this`maxFast, this`binmap, this`lastRemainder,
               this`ch, this`bins, this`fast
      ensures Ready() && Settled(ch) && (HaveFast(maxFast) ==> old(HaveFast(maxFast)))
      ensures victim != 0 || nb >= MIN_LARGE_SIZE ==> PoolOf(old(ch), base, end, pool, nb)
      ensures victim != 0 ==> Chosen(old(ch), pool, ch, victim, nb, req, how) && how != FromFast
      ensures victim != 0 && how == FromRemainder ==> victim == old(lastRemainder)
      ensures nb < MIN_LARGE_SIZE ==>
                (victim != 0 && how == FromRemainder <==> old(RemainderDue(V(), lastRemainder, nb)))
      ensures victim == 0 ==>
                Rebinned(pool, ch) && LiveMap(ch) == old(LiveMap(ch)) && NoFit(ch, nb) && Covers(old(ch), pool)
      ensures victim == 0 ==> lastRemainder == old(lastRemainder) && NoFastFit(ch, nb)
      ensures victim == 0 && nb >= MIN_LARGE_SIZE ==> !HaveFast(maxFast)
      ensures victim == 0 && nb < MIN_LARGE_SIZE ==> pool == old(ch)
      ensures Looked(old(Now()), Now(), victim, nb, req)
      ensures victim != 0 ==> Malloced(old(Now()), Now(), pagesize, pool, victim, nb, req, how)
      ensures victim == 0 ==> |bins| == NBINS && bins[1] == []
      ensures victim == 0 ==> if nb < MIN_LARGE_SIZE then fast == old(fast) else Emptied(fast)
    {
      hide Core, ChunkSize, PrevInuse, Granule, Word, MapOK, BinIndex, BlocksOK, TopOK, Settled, FlagsOK,
           Request2Size, Taken,
           Served, BestFit, LegalSize, Rd, Bin, NoFit, HaveFast, HaveAny, Chosen, NoFast, PoolOf, FastIndex, Rebinned,
             Covers,
           NoFastFit, Available, RemainderDue, Newest, NoExactFit, LookedThrough, Looked, Malloced, Hit, Searched, Take,
           FastAfter, Sweep, Flat, Emptied;
      NormalSize(nb);
      CoreShape(V());
      CoversRefl(ch);
      BinIndexUsable(nb);
      SmallIndex(nb);
      pool := ch;
      ghost var s := Lists(ch, bins);
      if nb >= MIN_LARGE_SIZE {
        Tidy();
        CoreShape(V());
        s := Lists(ch, bins);
        NoFastChunks(V(), maxFast);
        PoolClean(old(ch), V(), nb);
        pool := ch;
      }
      ghost var n;
      victim, how, n := SearchPool(nb, req);
      if victim != 0 && nb < MIN_LARGE_SIZE { BinServes(pool, ch, victim, nb, req, how); }
      LookedFurther(old(Now()), s, Now(), pagesize, victim, nb, req, n, how);
      if victim != 0 {
        ChosenServed(old(ch), pool, ch, victim, nb, req, how);
        if nb < MIN_LARGE_SIZE { PoolItself(old(V()), nb); }
      } else {
        how := Nowhere;
        NoFitBinned(pool, ch, nb);
        AvailableRebinned(pool, ch, nb);
      }
    }

    lemma PageThere()
      requires Bounded()
      ensures pagesize > 0 && Granule(pagesize)
    {
    }

    /** The end of `malloc`: nothing that is free fits, so the block is cut from top, and memory is asked for
        if top is too small.  a is the moment before the request, pool1 what was searched in vain. */
    method UseTop(nb: int, req: nat, ghost a: Moment, ghost pool1: Chunks)
        returns (victim: int, ghost how: Origin, ghost pool: Chunks)
      requires Ready() && Settled(ch) && nb == Request2Size(req) && LegalSize(nb) && nb < WORD32 && NoFit(ch, nb)
      requires a.v.base == base && a.v.end == end && LiveMap(ch) == LiveMap(a.v.ch) && Covers(a.v.ch, pool1)
               && Rebinned(pool1, ch)
      requires NoFastFit(a.v.ch, nb) && NoFastFit(ch, nb)
      requires nb >= MIN_LARGE_SIZE ==> !HaveFast(maxFast) && PoolOf(a.v.ch, base, end, pool1, nb)
      requires nb < MIN_LARGE_SIZE ==> pool1 == a.v.ch && Core(a.v) && Settled(a.v.ch)
      requires a.calls == calls && a.last == lastRemainder
      requires |bins| == NBINS && bins[1] == [] && if nb < MIN_LARGE_SIZE then fast == a.v.fast else Emptied(fast)
      modifies this`sz, this`psz, this`fd, this`bk, this`top, this`heads, this`maxFast, this`binmap, this`lastRemainder,
               this`brk, this`calls, this`ch, this`base, this`end, this`bins, this`fast
      decreases if HaveFast(maxFast) then 1 else 0, 1
      ensures Ready() && Settled(ch) && PoolOf(a.v.ch, old(base), old(end), pool, nb)
      ensures victim != 0 ==> Chosen(a.v.ch, pool, ch, victim, nb, req, how) && how != FromFast
      ensures nb < MIN_LARGE_SIZE && Available(a.v.ch, nb) ==> victim != 0 && how == FromTop
      ensures victim != 0 && how == FromRemainder ==> victim == old(lastRemainder)
      ensures victim == 0 ==> LiveMap(ch) == LiveMap(a.v.ch) && NoFast(pool) && NoFit(pool, nb)
      ensures victim == 0 ==> TopSmall(V(), top, nb)
      ensures victim == 0 ==> lastRemainder == old(lastRemainder)
      ensures Malloced(a, Now(), pagesize, pool, victim, nb, req, how)
      ensures calls == old(calls) ==> brk == old(brk)
      ensures victim != 0 && nb >= MIN_LARGE_SIZE ==> how == FromTop
    {
      hide Core, ChunkSize, PrevInuse, Granule, Word, MapOK, BinIndex, BlocksOK, TopOK, Settled, FlagsOK,
           Request2Size, Taken,
           LegalSize, NoFit, HaveFast, Chosen, NoFast, PoolOf, Rebinned, TopSmall, NoFastFit, Available, OnTop,
             Covers, Bounded, LiveMap, Malloced, Emptied, FastAfter;
      NormalSize(nb);
      PageThere();
      ghost var v0, ch1, m := a.v, ch, Now();
      victim := CutTop(nb, req);
      if victim != 0 {
        how, pool := FromTop, pool1;
        NoFitBinned(pool, ch1, nb);
        TopRebinned(pool, ch1, victim);
        TopServes(pool, victim, nb);
        ChosenTop(v0.ch, ch1, pool, ch, victim, nb, req);
        if nb < MIN_LARGE_SIZE { PoolItself(v0, nb); }
        FastKept(v0, fast, nb, FromTop);
        MallocedTop(a, Now(), pagesize, pool, ch1, victim, nb, req);
      } else {
        Unavailable(V(), top, nb);
        AvailableRebinned(pool1, ch, nb);
        victim, how, pool := SysMalloc(nb, req);
        PoolTrans(v0.ch, pool1, ch1, old(base), old(end), pool, nb);
        if victim != 0 { ChosenTrans(v0.ch, ch1, pool, ch, victim, nb, req, how); }
        NowhereIs(m, Now(), pagesize, pool, victim, nb, req, how);
        MallocedFrom(a, m, Now(), pagesize, pool, victim, nb, req, how);
      }
    }

    /** `malloc` for a padded number of bytes. */
    method Allocate(nb: int, req: nat) returns (victim: int, ghost how: Origin, ghost pool: Chunks)
      requires Valid() && nb == Request2Size(req) && LegalSize(nb) && nb < WORD32
      modifies this`sz, this`psz, this`fd, this`bk, this`top, this`heads, this`maxFast, this`binmap, this`lastRemainder,
               this`brk, this`calls, this`ch, this`base, this`end, this`bins, this`fast
      decreases if HaveFast(maxFast) then 1 else 0, 2
      ensures Ready() && Settled(ch) && PoolOf(old(ch), old(base), old(end), pool, nb)
      ensures victim != 0 ==> Chosen(old(ch), pool, ch, victim, nb, req, how)
      ensures victim != 0 && how == FromRemainder ==> victim == old(lastRemainder)
      ensures nb < MIN_LARGE_SIZE && NoFastFit(old(ch), nb) && Available(old(ch), nb) ==>
                (victim != 0 && how == FromRemainder <==> old(RemainderDue(V(), lastRemainder, nb)))
      ensures victim != 0 && how == FromFast ==> old(Newest(V(), nb, victim))
      ensures victim == 0 ==> LiveMap(ch) == old(LiveMap(ch)) && lastRemainder == old(lastRemainder)
      ensures victim == 0 ==> NoFast(pool) && NoFit(pool, nb) && TopSmall(V(), top, nb)
      ensures Malloced(old(Now()), Now(), pagesize, pool, victim, nb, req, how)
      ensures calls == old(calls) ==> brk == old(brk)
      ensures victim != 0 && how != FromTop && (nb >= MIN_LARGE_SIZE || Available(old(ch), nb)) ==>
                Looked(old(Now()), Now(), victim, nb, req)
    {
      hide Core, ChunkSize, PrevInuse, Granule, Word, MapOK, BinIndex, BlocksOK, TopOK, Settled, FlagsOK,
           Request2Size, Taken,
           Served, BestFit, LegalSize, Rd, Bin, NoFit, HaveFast, HaveAny, Chosen, NoFast, PoolOf, Rebinned,
           TopSmall, NoFastFit, Available, OnTop, Covers, RemainderDue, Newest, Malloced, Looked, Emptied;
      victim, how, pool := 0, Nowhere, ch;
      ghost var v0 := V();
      if !HaveAny(maxFast) {
        assert maxFast == 0 ==> Blank() by {
          if Ready() { FlagsBound(maxFast, bins, fast); }
        }
        if maxFast == 0 {
          InitState();
        }
        v0 := V();
        NothingFree(v0, maxFast, nb);
        DueSame(old(V()), v0, old(lastRemainder), nb);
        NoFlags(maxFast, bins, fast);
        CoreShape(v0);
        AllEmptied(fast);
        PoolItself(v0, nb);
        RebinnedRefl(ch);
        CoversRefl(ch);
      } else {
        InitialisedNow(maxFast);
        victim, how := FromFixed(nb, req);
        if victim == 0 {
          victim, how, pool := FromBins(nb, req);
        }
      }
      if victim == 0 {
        ghost var a := Moment(v0, calls, old(lastRemainder));
        victim, how, pool := UseTop(nb, req, a, pool);
        MallocedSame(old(Now()), a, Now(), pagesize, pool, victim, nb, req, how);
      }
    }

    /** `malloc`. */
    method Malloc(bytes: nat) returns (mem: int, ghost how: Origin, ghost pool: Chunks)
      requires Valid() && (OutOfRange(bytes) || Request2Size(bytes) < WORD32)
      modifies this`sz, this`psz, this`fd, this`bk, this`top, this`heads, this`maxFast, this`binmap, this`lastRemainder,
               this`brk, this`calls, this`ch, this`base, this`end, this`bins, this`fast
      decreases if HaveFast(maxFast) then 1 else 0, 3
      ensures Valid() && (!OutOfRange(bytes) ==>
                Ready() && Settled(ch) && PoolOf(old(ch), old(base), old(end), pool, Request2Size(bytes)))
      ensures mem != 0 ==>
                !OutOfRange(bytes) && Chosen(old(ch), pool, ch, mem - 16, Request2Size(bytes), bytes, how) && mem > 16
      ensures mem != 0 && how == FromRemainder ==> mem - 16 == old(lastRemainder)
      ensures !OutOfRange(bytes) && Request2Size(bytes) < MIN_LARGE_SIZE && NoFastFit(old(ch), Request2Size(bytes))
              && Available(old(ch), Request2Size(bytes)) ==>
                (mem != 0 && how == FromRemainder <==> old(RemainderDue(V(), lastRemainder, Request2Size(bytes))))
      ensures mem != 0 && how == FromFast ==> old(Newest(V(), Request2Size(bytes), mem - 16))
      ensures mem == 0 ==> LiveMap(ch) == old(LiveMap(ch)) && lastRemainder == old(lastRemainder)
      ensures mem == 0 && !OutOfRange(bytes) ==>
                NoFast(pool) && NoFit(pool, Request2Size(bytes)) && TopSmall(V(), top, Request2Size(bytes))
      ensures !OutOfRange(bytes) ==>
                && Malloced(old(Now()), Now(), pagesize, pool, ChunkOf(mem), Request2Size(bytes), bytes, how)
                && (mem == 0 ==> Refused(old(calls), calls))
      ensures OutOfRange(bytes) ==> mem == 0 && Now() == old(Now()) && brk == old(brk)
      ensures calls == old(calls) ==> brk == old(brk)
      ensures mem != 0 && how != FromTop
              && (Request2Size(bytes) >= MIN_LARGE_SIZE || Available(old(ch), Request2Size(bytes))) ==>
                Looked(old(Now()), Now(), mem - 16, Request2Size(bytes), bytes)
    {
      hide Core, ChunkSize, PrevInuse, Granule, Word, MapOK, BinIndex, BlocksOK, TopOK, Settled, FlagsOK,
           Request2Size, Taken,
           Served, BestFit, LegalSize, Rd, Bin, NoFit, HaveFast, HaveAny, Chosen, NoFast, PoolOf, Rebinned,
             OutOfRange, TopSmall,
           NoFastFit, Available, OnTop, Covers, RemainderDue, Newest, Malloced, Refused, Looked, Emptied;
      mem, how, pool := 0, Nowhere, ch;
      if OutOfRange(bytes) {
        return;
      }
      Request2SizeLeast(bytes, 0);
      var nb := Request2Size(bytes);
      NormalSize(nb);
      var victim;
      victim, how, pool := Allocate(nb, bytes);
      if victim != 0 {
        ChosenPositive(V(), old(ch), pool, victim, nb, bytes, how);
        mem := victim + 16;
      } else {
        FailsRefused(old(Now()), Now(), pagesize, pool, nb, bytes, how);
      }
    }

    /** The words of a block that is about to be freed are no longer the user's. */
    ghost method Forget(p: int)
      requires Ready()
      modifies this`stored
      ensures Ready() && stored == Forgotten(old(stored), p) && Bare(stored, p)
    {
      hide Core, MapOK, FlagsOK, BlocksOK;
      ForgottenCore(V(), p);
      stored := Forgotten(stored, p);
      assert V() == old(V()).(stored := stored);
    }

    /** A word is written into the block c, by its user or by a copy. */
    method Poke(a: int, x: int, ghost c: int)
      requires Ready() && c in LiveMap(ch) && Inside(ch, c, a)
      modifies this`sz, this`psz, this`fd, this`bk, this`stored
      ensures Ready() && V() == Poked(old(V()), c, a, x)
    {
      hide Core, MapOK, FlagsOK, BlocksOK, Inside;
      PokedCore(V(), c, a, x);
      TopUnique(V(), top, c);
      psz := psz[a := x];
      sz := sz[a - 8 := x];
      fd := fd[a - 16 := x];
      bk := bk[a - 24 := x];
      stored := stored[a := Cell(c, x)];
      assert V() == Poked(old(V()), c, a, x);
    }

    /** `free`; freeing 0 has no effect. */
    method Free(mem: int)
      requires Valid() && (mem == 0 || mem - 16 in LiveMap(ch))
      modifies this`sz, this`psz, this`fd, this`bk, this`top, this`heads, this`maxFast, this`brk, this`calls, this`ch,
               this`end, this`bins, this`fast, this`stored
      ensures Valid() && LiveMap(ch) == if mem == 0 then old(LiveMap(ch)) else old(LiveMap(ch)) - {mem - 16}
      ensures stored == if mem == 0 then old(stored) else Forgotten(old(stored), mem - 16)
      ensures mem != 0 ==> pagesize > 0 && Freed(old(Now()), Now(), pagesize, mem - 16)
      ensures mem == 0 ==> Now() == old(Now()) && brk == old(brk)
    {
      hide Core, MapOK, FlagsOK, BlocksOK, TopOK, Freed;
      ghost var a := Now();
      if mem != 0 {
        assert Ready() && Settled(ch);
        Forget(mem - 16);
        ghost var a' := Now();
        FreeChunk(mem - 16);
        FreedSame(a, a', Now(), pagesize, mem - 16);
      }
    }

    /** The end of `realloc`: the block p, enlarged to newsize bytes in w but not yet in its header, is cut
        back to nb bytes if a chunk can be made of the rest. */
    method FinishResize(p: int, newsize: int, nb: int, req: nat, ghost w0: View)
      requires Core(w0) && TopOK(w0, top) && Settled(w0.ch) && MapOK(binmap, w0.bins)
               && FlagsOK(maxFast, w0.bins, w0.fast) && Bounded()
      requires p in w0.ch && w0.ch[p] == Chunk(newsize, Live(req)) && BlocksOK(LiveMap(w0.ch) - {p})
      requires nb == Request2Size(req) >= MINSIZE && Granule(nb) && newsize >= nb
      requires V() == w0.(ch := ch, bins := bins, sz := sz) && HeaderPending(w0, sz, p, newsize)
      modifies this`sz, this`psz, this`fd, this`bk, this`top, this`heads, this`maxFast, this`brk, this`calls, this`ch,
               this`end, this`bins, this`fast, this`stored
      ensures Ready() && Settled(ch) && p in ch && ch[p].st == Live(req) && nb <= ch[p].size < nb + MINSIZE
              && ch[p].size <= newsize
      ensures LiveMap(ch) == LiveMap(w0.ch)[p := ch[p]] && Kept(old(stored), stored, p, p, ch[p].size)
      ensures Finished(Moment(w0, old(calls), lastRemainder), Now(), pagesize, p, nb, req)
    {
      hide Core, ChunkSize, PrevInuse, Granule, Word, MapOK, BlocksOK, TopOK, FlagsOK, Request2Size, HeaderPending,
           SetHeadSize, SetLow, Settled, SettledBut, Freed;
      ghost var w;
      TopUnique(w0, top, p);
      if newsize - nb < MINSIZE {
        w := WriteWhole(w0, sz, p, newsize);
        sz := sz[p := SetHeadSize(Rd(sz, p), newsize)];
        sz := sz[p + newsize := SetLow(Rd(sz, p + newsize))];
        ch, bins := w.ch, w.bins;
        assert V() == w;
        BlockBack(LiveMap(ch), p, req);
        KeptSame(V(), p, newsize);
      } else {
        CutBack(p, newsize, nb, req, w0);
      }
    }

    /** The rest of a block becomes a chunk of its own. */
    method SplitBlock(p: int, newsize: int, nb: int, req: nat, ghost w0: View)
      requires Core(w0) && TopOK(w0, top) && Settled(w0.ch) && MapOK(binmap, w0.bins)
               && FlagsOK(maxFast, w0.bins, w0.fast) && Bounded()
      requires p in w0.ch && w0.ch[p] == Chunk(newsize, Live(req)) && BlocksOK(LiveMap(w0.ch) - {p}) && w0.base < w0.end
      requires nb == Request2Size(req) >= MINSIZE && Granule(nb) && newsize - nb >= MINSIZE
      requires V() == w0.(ch := ch, bins := bins, sz := sz) && HeaderPending(w0, sz, p, newsize)
      modifies this`sz, this`ch, this`bins, this`stored
      ensures Ready() && SettledBut(ch, p + nb) && Bare(stored, p + nb) && stored == Trimmed(old(stored), p, nb)
      ensures ch == w0.ch[p := Chunk(nb, Live(req))][p + nb := Chunk(newsize - nb, Held)] && bins == w0.bins
      ensures LiveMap(ch) == LiveMap(w0.ch)[p := Chunk(nb, Live(req))] && LiveMap(ch) - {p + nb} == LiveMap(ch)
    {
      hide Core, ChunkSize, PrevInuse, Granule, Word, MapOK, BlocksOK, TopOK, FlagsOK, Request2Size, HeaderPending,
           SetHeadSize, SetLow, Settled, SettledBut, Trimmed;
      ghost var w := CutView(w0, sz, p, newsize, nb, req);
      stored := Trimmed(stored, p, nb);
      var rest := p + nb;
      sz := sz[p := SetHeadSize(Rd(sz, p), nb)];
      sz := sz[rest := (newsize - nb) + 1];
      sz := sz[rest + (newsize - nb) := SetLow(Rd(sz, rest + (newsize - nb)))];
      ch, bins := w.ch, w.bins;
      assert V() == w;
      assert LiveMap(ch) - {p} == LiveMap(w0.ch) - {p};
      BlockBack(LiveMap(ch), p, req);
      NotLiveBare(V(), rest);
    }

    /** The rest of a block becomes a chunk and is freed. */
    method CutBack(p: int, newsize: int, nb: int, req: nat, ghost w0: View)
      requires Core(w0) && TopOK(w0, top) && Settled(w0.ch) && MapOK(binmap, w0.bins)
               && FlagsOK(maxFast, w0.bins, w0.fast) && Bounded()
      requires p in w0.ch && w0.ch[p] == Chunk(newsize, Live(req)) && BlocksOK(LiveMap(w0.ch) - {p}) && w0.base < w0.end
      requires nb == Request2Size(req) >= MINSIZE && Granule(nb) && newsize - nb >= MINSIZE
      requires V() == w0.(ch := ch, bins := bins, sz := sz) && HeaderPending(w0, sz, p, newsize)
      modifies this`sz, this`psz, this`fd, this`bk, this`top, this`heads, this`maxFast, this`brk, this`calls, this`ch,
               this`end, this`bins, this`fast, this`stored
      ensures Ready() && Settled(ch) && p in ch && ch[p] == Chunk(nb, Live(req))
      ensures LiveMap(ch) == LiveMap(w0.ch)[p := ch[p]] && Kept(old(stored), stored, p, p, nb)
      ensures Finished(Moment(w0, old(calls), lastRemainder), Now(), pagesize, p, nb, req)
    {
      hide Core, ChunkSize, PrevInuse, Granule, Word, MapOK, BlocksOK, TopOK, FlagsOK, Request2Size, HeaderPending,
           Settled, SettledBut, Kept, Trimmed, Freed, Finished;
      KeptTrimmed(stored, p, nb);
      SplitBlock(p, newsize, nb, req, w0);
      ghost var a' := Now();
      assert p in LiveMap(ch);
      FreeChunk(p + nb);
      FinishedCut(Moment(w0, old(calls), lastRemainder), a', Now(), pagesize, p, nb, req);
      assert p in LiveMap(ch);
    }

    /** The block is large enough already. */
    method ResizeHere(p: int, size: int, nb: int, req: nat)
      requires Ready() && Settled(ch) && p in LiveMap(ch) && ch[p].size == size >= nb
      requires nb == Request2Size(req) >= MINSIZE && Granule(nb)
      modifies this`sz, this`psz, this`fd, this`bk, this`top, this`heads, this`maxFast, this`brk, this`calls, this`ch,
               this`end, this`bins, this`fast, this`stored
      ensures Ready() && Settled(ch) && Resized(old(ch), ch, p, nb, req) && ch[p].size <= size
      ensures Kept(old(stored), stored, p, p, ch[p].size)
      ensures Finished(old(Now()), Now(), pagesize, p, nb, req)
    {
      hide Core, ChunkSize, PrevInuse, Granule, Word, MapOK, BlocksOK, TopOK, FlagsOK, Request2Size, HeaderPending,
           SetHeadSize, SetLow, Settled, Finished;
      ghost var w := GrowNone(V(), p, req);
      BlocksBut(LiveMap(ch), LiveMap(w.ch), p);
      FinishResize(p, size, nb, req, w);
      FinishedSame(old(Now()), Moment(w, old(calls), lastRemainder), Now(), pagesize, p, nb, req);
    }

    /** Expand forward into top. */
    method ResizeTop(p: int, size: int, nb: int, req: nat)
      requires Ready() && Settled(ch) && p in LiveMap(ch) && ch[p].size == size < nb && p + size == top
      requires nb == Request2Size(req) >= MINSIZE && Granule(nb) && size + ChunkSize(Rd(sz, top)) >= nb + MINSIZE
      modifies this`sz, this`top, this`ch
      ensures Ready() && Settled(ch) && Resized(old(ch), ch, p, nb, req) && ch[p].size == nb
      ensures p + size in old(ch) && var rest := size + old(ch)[p + size].size - nb;
              ch == (old(ch) - {p + size})[p := Chunk(nb, Live(req))][p + nb := Chunk(rest, Top)]
    {
      hide Core, ChunkSize, PrevInuse, Granule, Word, MapOK, BlocksOK, FlagsOK, Request2Size, SetHeadSize, Settled,
           CutHead;
      HeaderFacts(V(), p);
      TopUnique(V(), top, p);
      HeaderFacts(V(), top);
      ghost var w := BorrowView(V(), p, top, nb, req);
      var newsize := size + ChunkSize(Rd(sz, top));
      sz := CutHead(sz, p, nb, newsize);
      top := p + nb;
      ch := w.ch;
      assert V() == w;
      BlocksBut(old(LiveMap(ch)), LiveMap(ch), p);
      BlockBack(LiveMap(ch), p, req);
    }

    /** Expand forward into a free chunk. */
    method ResizeNext(p: int, size: int, next: int, nextsize: int, nb: int, req: nat)
      requires Ready() && Settled(ch) && p in LiveMap(ch) && ch[p].size == size && next == p + size
      requires next in ch && Idle(ch[next]) && ch[next].size == nextsize && size + nextsize >= nb
      requires nb == Request2Size(req) >= MINSIZE && Granule(nb)
      modifies this`sz, this`psz, this`fd, this`bk, this`top, this`heads, this`maxFast, this`brk, this`calls, this`ch,
               this`end, this`bins, this`fast, this`stored
      ensures Ready() && Settled(ch) && Resized(old(ch), ch, p, nb, req) && Kept(old(stored), stored, p, p, ch[p].size)
      ensures var joined := (old(ch) - {next})[p := Chunk(size + nextsize, Live(req))];
              var u := old(V()).(ch := joined, bins := Off(old(bins), next));
              Finished(Moment(u, old(calls), lastRemainder), Now(), pagesize, p, nb, req)
    {
      hide Core, ChunkSize, PrevInuse, Granule, Word, MapOK, BlocksOK, TopOK, FlagsOK, Request2Size, HeaderPending,
           SetHeadSize, SetLow, Unlinked, Off, Finished;
      assert ch[next].st.Binned?;
      ghost var k := Locate(V(), next);
      OffAt(V(), ch[next].st.bin, k);
      ghost var joined := (ch - {next})[p := Chunk(size + nextsize, Live(req))];
      ghost var u := V().(ch := joined, bins := Off(bins, next));
      ghost var i := ch[next].st.bin;
      ghost var w := GrowNext(V(), p, k, req);
      TopUnique(V(), top, p);
      Unlink(next, V(), i, k);
      MapShrunk(binmap, bins, w.bins);
      FlagsShrunk(maxFast, bins, w.bins, fast, next, i);
      BlocksBut(LiveMap(ch), LiveMap(w.ch), p);
      FinishResize(p, size + nextsize, nb, req, w);
      ghost var a, a' := Moment(u, old(calls), lastRemainder), Moment(w, old(calls), lastRemainder);
      FinishedSame(a, a', Now(), pagesize, p, nb, req);
    }

    /** One assignment of the copy of `realloc`: word i. */
    method CopyWord(s: int, d: int, i: int, ghost v: View, ghost q: int)
      requires Ready() && i >= 0 && V() == CopiedWords(v, q, s, d, i) && (s + 8 * i + 8 <= d || d + 8 * i <= s)
      requires q in ch && ch[q].st.Live? && Word(d) && q + 16 <= d && d + 8 * i <= Next(ch, q)
      modifies this`sz, this`psz, this`fd, this`bk, this`stored
      ensures Ready() && V() == CopiedWords(v, q, s, d, i + 1)
    {
      hide Core, MapOK, FlagsOK, BlocksOK, TopOK, Word, Poked;
      WordAt(d, i);
      CopiedElse(v, q, s, d, i, s + 8 * i);
      assert Inside(ch, q, d + 8 * i);
      Poke(d + 8 * i, Rd(psz, s + 8 * i), q);
    }

    /** The copy of `realloc`.  The contents are an odd number of words, at least 3; up to 9 of them are
        copied by unrolled assignments, which cover every word because the number is odd. */
    method CopyWords(s: int, d: int, n: nat, ghost q: int)
      requires Ready() && n >= 3 && n % 2 == 1 && (s + 8 * n <= d || d + 8 * n <= s)
      requires q in ch && ch[q].st.Live? && Word(d) && d == q + 16 && 8 * n + 8 <= ch[q].size
      modifies this`sz, this`psz, this`fd, this`bk, this`stored
      ensures Ready() && V() == CopiedWords(old(V()), q, s, d, n)
    {
      hide Word, CopiedWords, LiveMap, Core, MapOK, FlagsOK, BlocksOK, TopOK;
      if n > 9 {
        ghost var v := V();
        CopiedNone(v, q, s, d);
        var i := 0;
        while i < n
          invariant 0 <= i <= n && Ready() && V() == CopiedWords(v, q, s, d, i)
        {
          CopyWord(s, d, i, v, q);
          i := i + 1;
        }
      } else {
        CopyUnrolled(s, d, n, q);
      }
    }

    method CopyUnrolled(s: int, d: int, n: nat, ghost q: int)
      requires Ready() && 3 <= n <= 9 && n % 2 == 1 && (s + 8 * n <= d || d + 8 * n <= s)
      requires q in ch && ch[q].st.Live? && Word(d) && d == q + 16 && 8 * n + 8 <= ch[q].size
      modifies this`sz, this`psz, this`fd, this`bk, this`stored
      ensures Ready() && V() == CopiedWords(old(V()), q, s, d, n)
    {
      hide Word, CopiedWords, LiveMap, Core, MapOK, FlagsOK, BlocksOK, TopOK;
      ghost var v := V();
      CopiedNone(v, q, s, d);
      CopyWord(s, d, 0, v, q);
      CopyWord(s, d, 1, v, q);
      CopyWord(s, d, 2, v, q);
      if n > 4 {
        CopyWord(s, d, 3, v, q);
        CopyWord(s, d, 4, v, q);
        if n > 6 {
          CopyWord(s, d, 5, v, q);
          CopyWord(s, d, 6, v, q);
          if n > 8 {
            CopyWord(s, d, 7, v, q);
            CopyWord(s, d, 8, v, q);
            assert n == 9;
          } else {
            assert n == 7;
          }
        } else {
          assert n == 5;
        }
      } else {
        assert n == 3;
      }
    }

    /** A block is recorded with another request of the same padded size. */
    ghost method Rename(p: int, req: nat)
      requires Ready() && Settled(ch) && p in LiveMap(ch)
      requires Request2Size(ch[p].st.req) == Request2Size(req)
      modifies this`ch
      ensures Ready() && Settled(ch) && ch == old(ch)[p := Chunk(old(ch)[p].size, Live(req))]
      ensures LiveMap(ch) == old(LiveMap(ch))[p := Chunk(old(ch)[p].size, Live(req))]
    {
      hide Core, Granule, Word, MapOK, FlagsOK, Request2Size;
      MarkedCore(V(), p, Live(req));
      ch := Mark(ch, p, Live(req));
      assert V() == old(V()).(ch := ch);
    }

    /** The newly allocated chunk is the one behind the block: the two are joined without copying. */
    method ResizeNeighbour(p: int, size: int, next: int, nextsize: int, nb: int, req: nat)
      requires Ready() && Settled(ch) && p in LiveMap(ch) && ch[p].size == size && next == p + size
      requires next in LiveMap(ch) && ch[next].size == nextsize && nextsize >= nb && Bare(stored, next)
      requires nb == Request2Size(req) >= MINSIZE && Granule(nb)
      modifies this`sz, this`psz, this`fd, this`bk, this`top, this`heads, this`maxFast, this`brk, this`calls, this`ch,
               this`end, this`bins, this`fast, this`stored
      ensures Ready() && Settled(ch) && p in ch && ch[p].st == Live(req) && nb <= ch[p].size < nb + MINSIZE
      ensures LiveMap(ch) == (old(LiveMap(ch)) - {next})[p := ch[p]] && Kept(old(stored), stored, p, p, ch[p].size)
      ensures var joined := (old(ch) - {next})[p := Chunk(size + nextsize, Live(req))];
              Finished(With(old(Now()), joined), Now(), pagesize, p, nb, req)
    {
      hide Core, ChunkSize, PrevInuse, Granule, Word, MapOK, BlocksOK, TopOK, FlagsOK, Request2Size, HeaderPending,
           SetHeadSize, SetLow, Finished;
      ghost var u := V().(ch := (ch - {next})[p := Chunk(size + nextsize, Live(req))]);
      HeaderFacts(V(), p);
      ghost var w := GrowNeighbour(V(), p, req);
      TopUnique(V(), top, p);
      BlocksLess(LiveMap(ch), LiveMap(w.ch), p);
      FinishResize(p, size + nextsize, nb, req, w);
      ghost var a, a' := Moment(u, old(calls), lastRemainder), Moment(w, old(calls), lastRemainder);
      FinishedSame(a, a', Now(), pagesize, p, nb, req);
    }

    /** The contents of p are copied to the newly allocated chunk q, and p is freed. */
    method MoveAway(p: int, size: int, q: int, nb: int, req: nat, ghost ch0: Chunks)
      requires Ready() && Settled(ch) && p in LiveMap(ch) && ch[p].size == size < nb
      requires q in LiveMap(ch) && q != p && q != p + size && q != 0 && Bare(stored, q)
      requires nb <= ch[q].size < nb + MINSIZE && nb == Request2Size(req) && Request2Size(ch[q].st.req) == nb
      requires p in LiveMap(ch0) && q !in LiveMap(ch0) && LiveMap(ch) == LiveMap(ch0)[q := ch[q]]
      modifies this`sz, this`psz, this`fd, this`bk, this`top, this`heads, this`maxFast, this`brk, this`calls, this`ch,
               this`end, this`bins, this`fast, this`stored
      ensures Ready() && Settled(ch)
      ensures Moved(ch0, ch, p, q, nb, req) && Kept(old(stored), stored, p, q, ch[q].size)
      ensures MovedTo(old(Now()), Now(), pagesize, p, size, q, nb, req, q)
    {
      hide Core, MapOK, BlocksOK, TopOK, FlagsOK, Request2Size, Settled, SettledBut, Kept, MovedTo, Freed, Unchanged,
           With;
      ghost var a := Now();
      CopyOver(p, size, q, req);
      assert p in LiveMap(ch);
      SettledAll(ch, p);
      ghost var a' := Now();
      OnlyChunks(a, a'.v, Mark(a.v.ch, q, Live(req)));
      FreeChunk(p);
      MovedCopy(ch0, a'.v.ch, ch, p, q, nb, req);
      MovedAway(a, a', Now(), pagesize, p, size, q, nb, req);
    }

    /** The block p moves to the newly allocated chunk q: they are joined, or the contents are copied and p is freed.
        ch0 are the chunks before the allocation. */
    method MoveInto(p: int, size: int, q: int, nb: int, req: nat, ghost ch0: Chunks) returns (newp: int)
      requires Ready() && Settled(ch) && p in LiveMap(ch) && ch[p].size == size < nb
      requires q in LiveMap(ch) && q != p && Bare(stored, q) && nb <= ch[q].size < nb + MINSIZE
      requires nb == Request2Size(req) >= MINSIZE && Granule(nb) && Request2Size(ch[q].st.req) == nb
      requires p in LiveMap(ch0) && q !in LiveMap(ch0) && LiveMap(ch) == LiveMap(ch0)[q := ch[q]]
      modifies this`sz, this`psz, this`fd, this`bk, this`top, this`heads, this`maxFast, this`brk, this`calls, this`ch,
               this`end, this`bins, this`fast, this`stored
      ensures Ready() && Settled(ch) && newp != 0
      ensures Moved(ch0, ch, p, newp, nb, req) && Kept(old(stored), stored, p, newp, ch[newp].size)
      ensures MovedTo(old(Now()), Now(), pagesize, p, size, q, nb, req, newp)
    {
      hide Core, ChunkSize, PrevInuse, Granule, Word, MapOK, BlocksOK, TopOK, FlagsOK, Request2Size, Settled, Kept,
           MovedTo, Freed, Finished;
      ghost var v1 := V();
      HeaderFacts(V(), p);
      HeaderFacts(V(), q);
      ReadyPositive(V(), p);
      ReadyPositive(V(), q);
      var next := p + size;
      var newsize := ChunkSize(Rd(sz, q));
      newp := q;
      if newp == next {
        ResizeNeighbour(p, size, next, newsize, nb, req);
        newp := p;
        MovedJoin(ch0, v1.ch, ch, p, next, nb, req);
        MovedBehind(old(Now()), Now(), pagesize, p, size, q, nb, req);
      } else {
        MoveAway(p, size, q, nb, req, ch0);
      }
    }

    /** Allocate, then join or copy and free. */
    method ResizeMove(p: int, size: int, nb: int, req: nat) returns (newp: int)
      requires Ready() && Settled(ch) && p in LiveMap(ch) && ch[p].size == size < nb
      requires nb == Request2Size(req) && LegalSize(nb) && nb < WORD32
      modifies this`sz, this`psz, this`fd, this`bk, this`top, this`heads, this`maxFast, this`binmap, this`lastRemainder,
               this`brk, this`calls, this`ch, this`base, this`end, this`bins, this`fast, this`stored
      ensures Ready() && Settled(ch)
      ensures newp == 0 ==> LiveMap(ch) == old(LiveMap(ch)) && stored == old(stored) && TopSmall(V(), top, nb)
      ensures newp != 0 ==> Moved(old(ch), ch, p, newp, nb, req) && Kept(old(stored), stored, p, newp, ch[newp].size)
      ensures Relocated(old(Now()), Now(), pagesize, p, size, nb, req, newp)
      ensures newp == 0 ==> Refused(old(calls), calls)
    {
      hide Core, ChunkSize, PrevInuse, Granule, Word, MapOK, BlocksOK, TopOK, FlagsOK, Request2Size, LegalSize,
           Chosen, PoolOf, NoFit, NoFast,
           Settled, OutOfRange, Kept, TopSmall, Relocated, MovedTo, Malloced, Allocated, Refused, Freed, Finished;
      NormalSize(nb);
      RetryAsksForSame(nb);
      InRange(nb - ALIGN_MASK);
      ghost var ch0, v0 := ch, V();
      var newmem;
      ghost var how, pool;
      newmem, how, pool := Malloc(nb - ALIGN_MASK);
      ghost var m, q := Now(), ChunkOf(newmem);
      AllocatedBy(old(Now()), m, pagesize, pool, q, nb, nb - ALIGN_MASK, how);
      if newmem == 0 {
        newp := 0;
        NotMoved(m, pagesize, p, size, nb, req);
      } else {
        ChosenFacts(ch0, pool, ch, q, nb, nb - ALIGN_MASK, how, p);
        NewBlockBare(v0, q);
        newp := MoveInto(p, size, newmem - 16, nb, req, ch0);
      }
      RelocatedBy(old(Now()), m, Now(), pagesize, p, size, q, nb, req, newp);
    }

    /** The contents of the block p are copied to the new block q; after that they are no longer p's. */
    method CopyOver(p: int, size: int, q: int, req: nat)
      requires Ready() && Settled(ch) && p in LiveMap(ch) && q in LiveMap(ch) && p != q && Bare(stored, q)
      requires ch[p].size == size <= ch[q].size && Request2Size(ch[q].st.req) == Request2Size(req)
      modifies this`sz, this`psz, this`fd, this`bk, this`ch, this`stored
      ensures Ready() && Settled(ch) && Bare(stored, p)
      ensures ch == old(ch)[q := Chunk(old(ch)[q].size, Live(req))]
      ensures LiveMap(ch) == old(LiveMap(ch))[q := Chunk(old(ch)[q].size, Live(req))]
      ensures Kept(old(stored), stored, p, q, ch[q].size)
    {
      hide Core, ChunkSize, PrevInuse, Granule, Word, MapOK, BlocksOK, TopOK, FlagsOK, Request2Size, Settled, Kept,
           Forgotten;
      HeaderFacts(V(), p);
      HeaderFacts(V(), q);
      OddWords(size);
      AreasApart(V(), p, q);
      UserWord(q);
      var n: nat := (size - 8) / 8;
      CopyWords(p + 16, q + 16, n, q);
      KeptCopy(old(V()), p, size, q, ch[q].size, n);
      Forget(p);
      Rename(q, req);
    }

    /** `realloc` of a block to a padded number of bytes. */
    method ResizeBlock(p: int, nb: int, req: nat) returns (newp: int)
      requires Ready() && Settled(ch) && p in LiveMap(ch) && nb == Request2Size(req) && LegalSize(nb) && nb < WORD32
      modifies this`sz, this`psz, this`fd, this`bk, this`top, this`heads, this`maxFast, this`binmap, this`lastRemainder,
               this`brk, this`calls, this`ch, this`base, this`end, this`bins, this`fast, this`stored
      ensures Ready() && Settled(ch)
      ensures newp == 0 ==> LiveMap(ch) == old(LiveMap(ch)) && stored == old(stored) && TopSmall(V(), top, nb)
      ensures newp == 0 ==> Refused(old(calls), calls) && !Stays(old(ch), p, nb)
      ensures newp != 0 ==> Moved(old(ch), ch, p, newp, nb, req) && Kept(old(stored), stored, p, newp, ch[newp].size)
      ensures Reallocated(old(Now()), Now(), pagesize, p, nb, req, newp)
      ensures (Stays(old(ch), p, nb) ==> newp == p != 0) && (IntoTop(old(ch), p, nb) ==> brk == old(brk))
    {
      hide Core, ChunkSize, PrevInuse, Granule, Word, MapOK, BlocksOK, TopOK, FlagsOK, Request2Size, LegalSize, Settled,
           Kept, TopSmall, Relocated, Finished, Refused, Off, Reallocated;
      NormalSize(nb);
      HeaderFacts(V(), p);
      ReadyPositive(V(), p);
      NextFacts(V(), p);
      var size := ChunkSize(Rd(sz, p));
      ghost var v0 := V();
      newp := p;
      if size >= nb {
        ResizeHere(p, size, nb, req);
        ReallocatedHere(old(Now()), Now(), pagesize, p, nb, req);
        MovedHere(v0.ch, ch, p, nb, req);
        return;
      }
      var next := p + size;
      HeaderFacts(V(), next);
      TopUnique(V(), top, next);
      var nextsize := ChunkSize(Rd(sz, next));
      if next == top && size + nextsize >= nb + MINSIZE {
        KeptSame(V(), p, nb);
        ResizeTop(p, size, nb, req);
        ReallocatedTop(old(Now()), Now(), pagesize, p, nb, req);
        MovedHere(v0.ch, ch, p, nb, req);
        return;
      }
      if next != top {
        NextFacts(V(), next);
        HeaderFacts(V(), next + nextsize);
      }
      if next != top && !PrevInuse(Rd(sz, next + nextsize)) && size + nextsize >= nb {
        ResizeNext(p, size, next, nextsize, nb, req);
        ReallocatedNext(old(Now()), Now(), pagesize, p, nb, req);
        MovedHere(v0.ch, ch, p, nb, req);
        return;
      }
      newp := ResizeMove(p, size, nb, req);
      ReallocatedMove(old(Now()), Now(), pagesize, p, nb, req, newp);
    }

    /** `realloc`. */
    method Realloc(oldmem: int, bytes: nat) returns (mem: int)
      requires Valid() && (oldmem == 0 || oldmem - 16 in LiveMap(ch)) && (OutOfRange(bytes)
               || Request2Size(bytes) < WORD32)
      modifies this`sz, this`psz, this`fd, this`bk, this`top, this`heads, this`maxFast, this`binmap, this`lastRemainder,
               this`brk, this`calls, this`ch, this`base, this`end, this`bins, this`fast, this`stored
      ensures Valid()
      ensures mem == 0 ==> LiveMap(ch) == old(LiveMap(ch)) && stored == old(stored)
      ensures mem == 0 && !OutOfRange(bytes) ==> TopSmall(V(), top, Request2Size(bytes))
      ensures mem == 0 && !OutOfRange(bytes) && oldmem != 0 ==> old(ch[oldmem - 16].size) < Request2Size(bytes)
      ensures mem != 0 && oldmem == 0 ==>
                Taken(old(ch), ch, mem - 16, Block(ch, mem).size, bytes) && stored == old(stored)
      ensures mem != 0 && oldmem != 0 ==> Moved(old(ch), ch, oldmem - 16, mem - 16, Request2Size(bytes), bytes)
      ensures mem != 0 && oldmem != 0 ==> Kept(old(stored), stored, oldmem - 16, mem - 16, Block(ch, mem).size)
      ensures mem == 0 && !OutOfRange(bytes) ==> Refused(old(calls), calls)
      ensures OutOfRange(bytes) ==> mem == 0 && Now() == old(Now()) && brk == old(brk)
      ensures oldmem == 0 && !OutOfRange(bytes) ==>
                pagesize > 0 && Allocated(old(Now()), Now(), pagesize, ChunkOf(mem), Request2Size(bytes), bytes)
      ensures oldmem != 0 && !OutOfRange(bytes) ==>
                && pagesize > 0 && oldmem - 16 in old(ch)
                && Reallocated(old(Now()), Now(), pagesize, oldmem - 16, Request2Size(bytes), bytes, ChunkOf(mem))
                && (Stays(old(ch), oldmem - 16, Request2Size(bytes)) ==> mem == oldmem)
                && (IntoTop(old(ch), oldmem - 16, Request2Size(bytes)) ==> brk == old(brk))
    {
      hide Core, ChunkSize, PrevInuse, Granule, Word, MapOK, BlocksOK, TopOK, FlagsOK, Request2Size, LegalSize,
           Chosen, PoolOf, NoFit, NoFast, Settled, OutOfRange, Kept, TopSmall, Malloced, Allocated, Relocated, Finished,
           Refused, Off, Reallocated;
      mem := 0;
      if oldmem == 0 {
        ghost var how, pool;
        mem, how, pool := Malloc(bytes);
        if mem != 0 { ChosenTaken(old(ch), pool, ch, mem - 16, Request2Size(bytes), bytes, how); }
        if !OutOfRange(bytes) {
          AllocatedBy(old(Now()), Now(), pagesize, pool, ChunkOf(mem), Request2Size(bytes), bytes, how);
        }
        return;
      }
      if OutOfRange(bytes) {
        return;
      }
      Request2SizeLeast(bytes, 0);
      var nb := Request2Size(bytes);
      NormalSize(nb);
      assert Blank() ==> ch == map[];
      var newp := ResizeBlock(oldmem - 16, nb, bytes);
      if newp != 0 {
        ReadyPositive(V(), newp);
        mem := newp + 16;
      }
    }

    /** The front of a fresh block is given back so that the rest starts at an aligned address. */
    method DropLead(p: int, size: int, lead: int)
      requires Ready() && Settled(ch) && p in LiveMap(ch) && ch[p].size == size
      requires lead >= MINSIZE && Granule(lead) && size - lead >= MINSIZE && Bare(stored, p)
      modifies this`sz, this`psz, this`fd, this`bk, this`top, this`heads, this`maxFast, this`brk, this`calls, this`ch,
               this`end, this`bins, this`fast
      ensures Ready() && Settled(ch) && p + lead in ch && ch[p + lead] == Chunk(size - lead, Live(size - lead - 8))
      ensures p + lead !in old(ch) && LiveMap(ch) == (old(LiveMap(ch)) - {p})[p + lead := ch[p + lead]]
      ensures Freed(With(old(Now()), Cut(old(ch), p, lead, Held, Live(size - lead - 8))), Now(), pagesize, p)
    {
      hide Core, ChunkSize, PrevInuse, Granule, Word, MapOK, BlocksOK, TopOK, FlagsOK, Request2Size, SetHeadSize,
           SetLow, Settled, SettledBut, Freed;
      ghost var w := LeadView(V(), p, lead);
      var newp, newsize := p + lead, size - lead;
      sz := sz[newp := newsize + 1];
      sz := sz[newp + newsize := SetLow(Rd(sz, newp + newsize))];
      sz := sz[p := SetHeadSize(Rd(sz, p), lead)];
      ch := w.ch;
      assert V() == w;
      LeadBlock(old(LiveMap(ch)), LiveMap(ch), p, newp, newsize);
      NotLiveBare(V(), p);
      FreeChunk(p);
      FreedSame(With(old(Now()), w.ch), Moment(w, old(calls), lastRemainder), Now(), pagesize, p);
      assert newp in LiveMap(ch);
    }

    /** Spare room at the end of a block is given back. */
    method DropTail(p: int, size: int, nb: int, req: nat)
      requires Ready() && Settled(ch) && p in LiveMap(ch) && ch[p].size == size >= nb
      requires nb == Request2Size(req) >= MINSIZE && Granule(nb) && Bare(stored, p)
      modifies this`sz, this`psz, this`fd, this`bk, this`top, this`heads, this`maxFast, this`brk, this`calls, this`ch,
               this`end, this`bins, this`fast
      ensures Ready() && Settled(ch) && p in ch && ch[p].st == Live(req) && nb <= ch[p].size <= nb + MINSIZE
      ensures LiveMap(ch) == old(LiveMap(ch))[p := ch[p]]
      ensures TailDropped(old(Now()), Now(), pagesize, p, nb, req)
    {
      hide Core, ChunkSize, PrevInuse, Granule, Word, MapOK, BlocksOK, TopOK, FlagsOK, Request2Size, SetHeadSize,
           SetLow, Settled, SettledBut, Freed, TailDropped, Unchanged, With;
      if size > nb + MINSIZE {
        ghost var w := TailView(V(), p, nb, req);
        OnlyChunks(Now(), w, Cut(ch, p, nb, Live(req), Held));
        var rest := p + nb;
        sz := sz[rest := (size - nb) + 1];
        sz := sz[p := SetHeadSize(Rd(sz, p), nb)];
        ch := w.ch;
        assert V() == w;
        BlocksBut(old(LiveMap(ch)), LiveMap(ch), p);
        BlockBack(LiveMap(ch), p, req);
        NotLiveBare(V(), rest);
        FreeChunk(rest);
        assert rest in w.ch;
        TailDroppedCut(old(Now()), Moment(w, old(calls), lastRemainder), Now(), pagesize, p, nb, req);
        assert p in LiveMap(ch);
      } else {
        ghost var w := GrowNone(V(), p, req);
        ch := w.ch;
        assert V() == w;
        BlocksBut(old(LiveMap(ch)), LiveMap(ch), p);
        BlockBack(LiveMap(ch), p, req);
        OnlyChunks(old(Now()), w, Mark(old(ch), p, Live(req)));
        TailKept(old(Now()), Now(), pagesize, p, nb, req);
      }
    }

    /** `memalign`. */
    method Memalign(alignment: nat, bytes: nat) returns (mem: int)
      requires Valid() && (OutOfRange(bytes) || Request2Size(bytes) + 2 * alignment + 128 < WORD32)
      modifies this`sz, this`psz, this`fd, this`bk, this`top, this`heads, this`maxFast, this`binmap, this`lastRemainder,
               this`brk, this`calls, this`ch, this`base, this`end, this`bins, this`fast
      ensures Valid()
      ensures mem == 0 ==> LiveMap(ch) == old(LiveMap(ch))
      ensures mem == 0 && !OutOfRange(bytes) ==> TopSmall(V(), top, Request2Size(bytes) + 2 * alignment + 128)
      ensures mem != 0 ==> !OutOfRange(bytes) && Taken(old(ch), ch, mem - 16, Block(ch, mem).size, bytes)
      ensures mem != 0 ==> Request2Size(bytes) <= Block(ch, mem).size <= Request2Size(bytes) + MINSIZE
      ensures mem != 0 ==> AlignedTo(mem, alignment)
      ensures mem == 0 && !OutOfRange(bytes) ==> Refused(old(calls), calls)
      ensures OutOfRange(bytes) ==> mem == 0 && Now() == old(Now()) && brk == old(brk)
      ensures !OutOfRange(bytes) ==>
                && pagesize > 0
                && if alignment <= 16 then
                     Allocated(old(Now()), Now(), pagesize, ChunkOf(mem), Request2Size(bytes), bytes)
                   else
                     exists a: nat :: SmallestPower(a, alignment)
                                      && CutOut(old(Now()), Now(), pagesize, a, Request2Size(bytes), bytes, mem)
    {
      hide Core, Granule, Word, MapOK, BlocksOK, TopOK, FlagsOK, Request2Size, LegalSize, Chosen, PoolOf, NoFit,
           NoFast, Settled, OutOfRange, TopSmall, AlignedTo, IsPow2, Malloced, Allocated, CutOut, Refused;
      if alignment <= ALIGNMENT {
        ghost var how, pool;
        mem, how, pool := Malloc(bytes);
        if mem != 0 {
          ChosenTaken(old(ch), pool, ch, mem - 16, Request2Size(bytes), bytes, how);
          ChosenSize(old(ch), pool, ch, mem - 16, Request2Size(bytes), bytes, how);
          SixteenAligned(V(), mem - 16);
          LeastAligned(alignment, 16, mem);
        } else {
          TopSmallMore(V(), top, Request2Size(bytes), Request2Size(bytes) + 2 * alignment + 128);
        }
        if !OutOfRange(bytes) {
          AllocatedBy(old(Now()), Now(), pagesize, pool, ChunkOf(mem), Request2Size(bytes), bytes, how);
        }
        return;
      }
      var a := RoundAlignment(alignment);
      if OutOfRange(bytes) {
        return 0;
      }
      mem := AlignedBlock(a, bytes);
      if mem != 0 { LeastAligned(alignment, a, mem); }
      TopSmallMore(V(), top, Request2Size(bytes) + a + 48, Request2Size(bytes) + 2 * alignment + 128);
    }

    /** A block large enough to hold an aligned spot is allocated, and what is in front of the spot and behind
        the request is given back. */
    method AlignedBlock(a: nat, bytes: nat) returns (mem: int)
      requires Valid() && !OutOfRange(bytes) && a >= MINSIZE && Granule(a) && Request2Size(bytes) + a + 48 < WORD32
      modifies this`sz, this`psz, this`fd, this`bk, this`top, this`heads, this`maxFast, this`binmap, this`lastRemainder,
               this`brk, this`calls, this`ch, this`base, this`end, this`bins, this`fast
      ensures Valid()
      ensures mem == 0 ==> LiveMap(ch) == old(LiveMap(ch)) && TopSmall(V(), top, Request2Size(bytes) + a + 48)
      ensures mem != 0 ==> Taken(old(ch), ch, mem - 16, Block(ch, mem).size, bytes) && mem % a == 0
      ensures mem != 0 ==> Request2Size(bytes) <= Block(ch, mem).size <= Request2Size(bytes) + MINSIZE
      ensures mem == 0 ==> Refused(old(calls), calls)
      ensures pagesize > 0 && CutOut(old(Now()), Now(), pagesize, a, Request2Size(bytes), bytes, mem)
    {
      hide Core, ChunkSize, Granule, Word, MapOK, BlocksOK, TopOK, FlagsOK, Request2Size, LegalSize, Chosen, PoolOf,
           NoFit, NoFast, Settled, OutOfRange,
           TopSmall, Malloced, Allocated, Refused, CutOut, LeadDropped, TailDropped, Lead;
      Request2SizeLeast(bytes, 0);
      var nb := Request2Size(bytes);
      NormalSize(nb);
      PaddedSize(nb, a);
      InRange(nb + a + MINSIZE);
      ghost var v0 := V();
      ghost var how, pool;
      mem, how, pool := Malloc(nb + a + MINSIZE);
      ghost var m := Now();
      AllocatedBy(old(Now()), m, pagesize, pool, ChunkOf(mem), nb + a + 48, nb + a + MINSIZE, how);
      if mem == 0 {
        CutOutNone(old(Now()), m, pagesize, a, nb, bytes);
        return;
      }
      ChosenTaken(old(ch), pool, ch, mem - 16, nb + a + 48, nb + a + MINSIZE, how);
      ChosenSize(old(ch), pool, ch, mem - 16, nb + a + 48, nb + a + MINSIZE, how);
      ValidBare(v0, mem - 16);
      ghost var q := mem - 16;
      ghost var lead, m';
      mem, lead, m' := CutAligned(mem, a, nb, bytes, old(ch));
      CutOutBy(old(Now()), m, m', Now(), pagesize, a, nb, bytes, q, lead);
    }

    /** What is in front of the first aligned spot of a fresh block and behind the request is given back.  ch0 are the
        chunks before the block was allocated. */
    method CutAligned(mem0: int, a: nat, nb: int, req: nat, ghost ch0: Chunks)
        returns (mem: int, ghost lead: int, ghost m: Moment)
      requires Ready() && Settled(ch) && mem0 - 16 in LiveMap(ch) && Bare(stored, mem0 - 16)
      requires nb == Request2Size(req) >= MINSIZE && Granule(nb) && a >= MINSIZE && Granule(a)
      requires mem0 - 16 !in LiveMap(ch0) && LiveMap(ch) == LiveMap(ch0)[mem0 - 16 := ch[mem0 - 16]]
      requires ch[mem0 - 16].size >= nb + a + 48
      modifies this`sz, this`psz, this`fd, this`bk, this`top, this`heads, this`maxFast, this`brk, this`calls, this`ch,
               this`end, this`bins, this`fast
      ensures Ready() && Settled(ch) && mem == mem0 + lead && mem % a == 0 && lead >= 0 && Lead(lead, mem0, a)
      ensures mem - 16 in ch && Taken(ch0, ch, mem - 16, ch[mem - 16].size, req)
      ensures nb <= ch[mem - 16].size <= nb + MINSIZE
      ensures LeadDropped(old(Now()), m, pagesize, mem0 - 16, lead)
      ensures TailDropped(m, Now(), pagesize, mem0 - 16 + lead, nb, req)
    {
      hide Core, ChunkSize, Granule, Word, MapOK, BlocksOK, TopOK, FlagsOK, Request2Size, Settled, LeadDropped,
           TailDropped, Freed, Lead, LeadOf;
      ghost var v1 := V();
      var p := mem0 - 16;
      HeaderFacts(V(), p);
      GranuleSum(p, 16);
      var skip := LeadOf(mem0, a);
      lead := skip;
      LeadFacts(mem0, a);
      LeadIs(mem0, a);
      if mem0 % a != 0 {
        DropLead(p, ChunkSize(Rd(sz, p)), skip);
        p := p + skip;
        NotLiveBare(v1, p);
      }
      m := Now();
      LeadDroppedIs(old(Now()), m, pagesize, mem0 - 16, lead);
      HeaderFacts(V(), p);
      assert p in LiveMap(ch);
      DropTail(p, ChunkSize(Rd(sz, p)), nb, req);
      AlignedTaken(ch0, v1.ch, m.v.ch, ch, mem0 - 16, p, req);
      mem := p + 16;
    }
  }

  /** The alignment is raised to a power of two, at least MINSIZE: the smallest one that will do. */
  ghost predicate SmallestPower(a: nat, alignment: nat) {
    && IsPow2(a) && a >= alignment && a >= MINSIZE
    && forall b: nat {:trigger IsPow2(b)} :: IsPow2(b) && b >= alignment && b >= MINSIZE ==> a <= b
  }

  method RoundAlignment(alignment: nat) returns (a: nat)
    requires alignment > ALIGNMENT
    ensures IsPow2(a) && a >= alignment && a >= MINSIZE && Granule(a) && a <= 2 * alignment + MINSIZE
    ensures SmallestPower(a, alignment)
  {
    hide Granule, IsPow2;
    ThirtyTwo();
    a := if alignment < MINSIZE then MINSIZE else alignment;
    if !IsPow2(a) {
      var x := ALIGNMENT * 2;
      while x < a
        invariant IsPow2(x) && MINSIZE <= x <= 2 * a
        invariant forall b: nat {:trigger IsPow2(b)} :: IsPow2(b) && b >= a ==> x <= b
      {
        forall b: nat {:trigger IsPow2(b)} | IsPow2(b) && b >= a ensures 2 * x <= b { NextPower(x, b); }
        DoublePower(x);
        x := 2 * x;
      }
      a := x;
    }
    PowerGranule(a);
  }
}
