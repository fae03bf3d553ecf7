/** What the operations of the allocator leave behind, exactly: which chunks there are, in which lists and in which
    order, and what the system was asked. */
module Outcomes {
  import opened Sizes
  import opened Layout
  import opened Shelves
  import opened HeapView
  import opened Transitions

  // ------------------------------------------------------------ the system

  /** A call of `MORECORE`: for more bytes, or with bytes to take back. */
  datatype Call = Asked(bytes: int, granted: bool) | Offered(bytes: int, taken: int)

  /** The allocator at one moment: the heap, the calls of the system so far, and the last remainder. */
  datatype Moment = Moment(v: View, calls: seq<Call>, last: int)

  /** `mem2chunk`, with 0 for no block. */
  function ChunkOf(mem: int): int {
    if mem == 0 then 0 else mem - 16
  }

  /** The last call of the system was a request, and it was refused. */
  predicate Refused(calls0: seq<Call>, calls1: seq<Call>) {
    && |calls0| < |calls1| && calls1[..|calls0|] == calls0
    && calls1[|calls1| - 1].Asked? && !calls1[|calls1| - 1].granted
  }

  // ------------------------------------------------------------ chunks and bins

  datatype Lists = Lists(ch: Chunks, bins: seq<List>)

  function ListsOf(v: View): Lists {
    Lists(v.ch, v.bins)
  }

  // ------------------------------------------------------------ joining a chunk with its neighbours

  /** q is a free chunk right in front of p. */
  predicate Borders(ch: Chunks, q: int, p: int) {
    q in ch && Idle(ch[q]) && Next(ch, q) == p
  }

  /** Where the joined chunk starts: at the free chunk in front of p, if there is one. */
  ghost function FrontOf(ch: Chunks, p: int): int {
    if exists q :: Borders(ch, q, p) then (var q :| Borders(ch, q, p); q) else p
  }

  lemma FrontIs(v: View, q: int, p: int)
    requires Core(v) && p in v.ch
    ensures Borders(v.ch, q, p) ==> FrontOf(v.ch, p) == q && q < p
    ensures FrontUsed(v.ch, v.sz, p) ==> FrontOf(v.ch, p) == p
  {
    hide Granule, Word, Shelved, Sorted, Rings, FastShelved, Chains, StoredOK;
    forall x, y | Borders(v.ch, x, p) && Borders(v.ch, y, p) ensures x == y && x < p {
      assert Placed(v.ch, v.base, v.end, x) && Placed(v.ch, v.base, v.end, y);
      assert Apart(v.ch, x, y) && Apart(v.ch, y, x);
    }
    forall x | Borders(v.ch, x, p) ensures !FrontUsed(v.ch, v.sz, p) {
      assert TailOK(v.ch, v.sz, v.psz, x) && Bordered(v.ch, x);
    }
  }

  /** The chunk p is no longer in use: it is joined with the free chunk in front of it and with the free chunk, or
      top, behind it.  What results is top, or goes to the front of the unsorted queue. */
  ghost function Joined(s: Lists, p: int): Lists
    requires p in s.ch
  {
    var q, n := FrontOf(s.ch, p), Next(s.ch, p);
    if n in s.ch && s.ch[n].st.Top? then
      Lists((s.ch - {p, n})[q := Chunk(Next(s.ch, n) - q, Top)], Off(s.bins, q))
    else if n in s.ch && Idle(s.ch[n]) then
      Lists((s.ch - {p, n})[q := Chunk(Next(s.ch, n) - q, Binned(1))], Queue(Off(Off(s.bins, q), n), q))
    else
      Lists((s.ch - {p})[q := Chunk(n - q, Binned(1))], Queue(Off(s.bins, q), q))
  }

  /** The bytes of the joined chunk. */
  ghost function JoinedSize(ch: Chunks, p: int): int
    requires p in ch
  {
    Joined(Lists(ch, []), p).ch[FrontOf(ch, p)].size
  }

  /** Joining in two steps: first with the chunk in front, u, then with what is behind, w. */
  lemma JoinedIs(v: View, u: View, w: View, p: int, size: int)
    requires Core(v) && p in v.ch && !Idle(v.ch[p]) && Next(v.ch, p) in v.ch
    requires var q, n := FrontOf(v.ch, p), Next(v.ch, p);
             && u.ch == (v.ch - {p})[q := Chunk(n - q, Held)] && u.bins == Off(v.bins, q) && q != n
             && if v.ch[n].st.Top? then
                  w.ch == (u.ch - {n})[q := Chunk(size, Top)] && w.bins == u.bins && size == n - q + v.ch[n].size
                else if Idle(v.ch[n]) then
                  && w.ch == (u.ch - {n})[q := Chunk(size, Binned(1))] && w.bins == Queue(Off(u.bins, n), q)
                  && size == n - q + v.ch[n].size
                else w.ch == u.ch[q := Chunk(size, Binned(1))] && w.bins == Queue(u.bins, q) && size == n - q
    ensures ListsOf(w) == Joined(ListsOf(v), p) && size == JoinedSize(v.ch, p)
  {
    hide Core, Off, Queue, FrontOf;
  }

  /** Where the bytes of p are afterwards: in top, or in the first chunk of the unsorted queue; every chunk that is
      not part of the joined one is as before. */
  lemma JoinedAround(v: View, p: int)
    requires Core(v) && p in v.ch && |v.bins| == NBINS
    ensures var s, q := Joined(ListsOf(v), p), FrontOf(v.ch, p);
            && q in s.ch && q <= p && Next(v.ch, p) <= Next(s.ch, q) && s.ch[q].size == JoinedSize(v.ch, p)
            && |s.bins| == NBINS
            && (s.ch[q].st.Top? || (s.ch[q].st == Binned(1) && s.bins[1] != [] && s.bins[1][0] == q))
            && (forall c :: c in s.ch && c != q ==> c in v.ch && s.ch[c] == v.ch[c])
  {
    hide Core;
    HeaderFacts(v, p);
    if exists q :: Borders(v.ch, q, p) {
      var q :| Borders(v.ch, q, p);
      FrontIs(v, q, p);
    }
    if Next(v.ch, p) in v.ch { HeaderFacts(v, Next(v.ch, p)); }
  }

  /** It makes no difference what p was used for. */
  lemma JoinedMarked(v: View, w: View, p: int, st: Status)
    requires Core(v) && Core(w) && p in v.ch && !Idle(v.ch[p])
    requires w.ch == Mark(v.ch, p, st) && !Idle(w.ch[p]) && w.bins == v.bins
    ensures Joined(ListsOf(w), p) == Joined(ListsOf(v), p) && JoinedSize(w.ch, p) == JoinedSize(v.ch, p)
  {
    hide Core;
    HeaderFacts(v, p);
    forall q ensures Borders(v.ch, q, p) <==> Borders(w.ch, q, p) {
    }
    if exists q :: Borders(v.ch, q, p) {
      var q :| Borders(v.ch, q, p);
      FrontIs(v, q, p);
      FrontIs(w, q, p);
    }
    var q, n := FrontOf(v.ch, p), Next(v.ch, p);
    assert FrontOf(w.ch, p) == q && Next(w.ch, p) == n && n != p;
    assert w.ch - {p} == v.ch - {p};
    assert w.ch - {p, n} == v.ch - {p, n};
  }

  // ------------------------------------------------------------ emptying the fastbins

  /** The chunks are joined one after the other. */
  ghost function Sweep(s: Lists, order: seq<int>): Lists {
    if order == [] then s
    else
      var n := |order| - 1;
      var t := Sweep(s, order[..n]);
      if order[n] in t.ch then Joined(t, order[n]) else t
  }

  lemma {:induction false} SweepAppend(s: Lists, a: seq<int>, b: seq<int>)
    ensures Sweep(s, a + b) == Sweep(Sweep(s, a), b)
  {
    hide Joined;
    if b == [] {
      assert a + b == a;
    } else {
      var n := |b| - 1;
      SweepAppend(s, a, b[..n]);
      assert (a + b)[..|a + b| - 1] == a + b[..n] && (a + b)[|a + b| - 1] == b[n];
    }
  }

  lemma SweepNone(s: Lists, order: seq<int>)
    ensures Sweep(s, order[..0]) == Sweep(s, []) == s
  {
  }

  lemma SweepOne(s: Lists, order: seq<int>, k: int)
    requires 0 <= k < |order| && order[k] in Sweep(s, order[..k]).ch
    ensures Sweep(s, order[..k + 1]) == Joined(Sweep(s, order[..k]), order[k])
  {
    assert order[..k + 1][..k] == order[..k];
  }

  /** The fastbins one after the other, each from its first chunk on. */
  function Flat(fast: seq<List>): seq<int> {
    if fast == [] then [] else Flat(fast[..|fast| - 1]) + fast[|fast| - 1]
  }

  lemma FlatNone(fast: seq<List>)
    ensures Flat(fast[..0]) == []
  {
  }

  lemma FlatNext(fast: seq<List>, i: int)
    requires 0 <= i < |fast|
    ensures Flat(fast[..i + 1]) == Flat(fast[..i]) + fast[i]
  {
    assert fast[..i + 1][..i] == fast[..i];
  }

  lemma {:induction false} FlatRest(fast: seq<List>, i: int)
    requires 0 <= i <= |fast| && forall j :: i <= j < |fast| ==> fast[j] == []
    ensures Flat(fast) == Flat(fast[..i])
    decreases |fast|
  {
    if i == |fast| {
      assert fast[..i] == fast;
    } else {
      var n := |fast| - 1;
      FlatRest(fast[..n], i);
      assert fast[..n][..i] == fast[..i];
    }
  }

  /** Without the flag for fastbins there is nothing to sweep. */
  lemma NothingToSweep(m: int, bins: seq<List>, fast: seq<List>, s: Lists)
    requires FlagsOK(m, bins, fast) && !HaveFast(m)
    ensures Emptied(fast) && Sweep(s, Flat(fast)) == s
  {
    hide Joined, HaveFast, HaveAny;
    FlatRest(fast, 0);
    SweepNone(s, []);
  }

  predicate Emptied(fast: seq<List>) {
    forall i :: 0 <= i < |fast| ==> fast[i] == []
  }

  // ------------------------------------------------------------ searching the bins

  /** The free chunk c is used for a request of nb padded bytes: whole, or, if the rest can be a chunk, its front
      part. */
  function TakeFrom(ch: Chunks, c: int, nb: int, req: nat): Chunks
    requires c in ch
  {
    var size := ch[c].size;
    if size - nb < MINSIZE then ch[c := Chunk(size, Live(req))]
    else ch[c := Chunk(nb, Live(req))][c + nb := Chunk(size - nb, Binned(1))]
  }

  /** The same with the bins: c leaves its bin, and the rest is the only chunk of the unsorted queue. */
  function Take(s: Lists, c: int, nb: int, req: nat): Lists
    requires c in s.ch && |s.bins| == NBINS
  {
    Lists(TakeFrom(s.ch, c, nb, req),
          if s.ch[c].size - nb < MINSIZE then Off(s.bins, c) else Off(s.bins, c)[1 := [c + nb]])
  }

  lemma TakeWholeIs(v: View, w: View, i: int, k: int, nb: int, req: nat)
    requires Core(v) && InBin(v, i, k) && w.bins == v.bins[i := Without(v.bins[i], k)]
    requires var c := v.bins[i][k]; w.ch == v.ch[c := Chunk(v.ch[c].size, Live(req))] && v.ch[c].size - nb < MINSIZE
    ensures ListsOf(w) == Take(ListsOf(v), v.bins[i][k], nb, req)
  {
    hide Core, Off;
    OffAt(v, i, k);
  }

  lemma TakeFrontIs(v: View, w: View, i: int, k: int, nb: int, req: nat)
    requires Core(v) && InBin(v, i, k)
    requires var c := v.bins[i][k];
             && w.ch == v.ch[c := Chunk(nb, Live(req))][c + nb := Chunk(v.ch[c].size - nb, Binned(1))]
             && w.bins == v.bins[i := Without(v.bins[i], k)][1 := [c + nb]] && v.ch[c].size - nb >= MINSIZE
    ensures ListsOf(w) == Take(ListsOf(v), v.bins[i][k], nb, req)
  {
    hide Core, Off;
    OffAt(v, i, k);
  }

  /** The chunk that the next small request is cut from: the rest of the chunk that was split for the last one. */
  function Remainder(size: int, c: int, nb: int, last: int): int {
    if nb < MIN_LARGE_SIZE && size - nb >= MINSIZE then c + nb else last
  }

  /** The last chunk of the unsorted queue moves to the bin of its size. */
  ghost function Shelve(s: Lists): (r: Lists)
    requires |s.bins| == NBINS
    ensures |r.bins| == NBINS
  {
    if s.bins[1] == [] || s.bins[1][|s.bins[1]| - 1] !in s.ch then s
    else
      var n := |s.bins[1]| - 1;
      var c := s.bins[1][n];
      var size := s.ch[c].size;
      if size < 0 || BinIndex(size) < 2 || BinIndex(size) >= NBINS then s
      else
        var i := BinIndex(size);
        Lists(Mark(s.ch, c, Binned(i)),
              s.bins[1 := s.bins[1][..n]][i := InsertAt(s.bins[i], Place(s.ch, s.bins[i], size), c)])
  }

  lemma ShelveIs(s: Lists, t: Lists, c: int, size: nat)
    requires |s.bins| == NBINS && s.bins[1] != [] && c == s.bins[1][|s.bins[1]| - 1] && c in s.ch
    requires size == s.ch[c].size && 2 <= BinIndex(size) < NBINS
    requires var i := BinIndex(size);
             && t.ch == Mark(s.ch, c, Binned(i))
             && var shelf := InsertAt(s.bins[i], Place(s.ch, s.bins[i], size), c);
                t.bins == s.bins[1 := s.bins[1][..|s.bins[1]| - 1]][i := shelf]
    ensures t == Shelve(s)
  {
    hide BinIndex, Place, InsertAt;
  }

  /** The n last chunks of the queue have moved. */
  ghost function Emptying(s: Lists, n: nat): (r: Lists)
    requires |s.bins| == NBINS
    ensures |r.bins| == NBINS
  {
    if n == 0 then s else Shelve(Emptying(s, n - 1))
  }

  /** None of the n last chunks of the queue has exactly nb bytes. */
  ghost predicate Passed(ch: Chunks, queue: List, n: nat, nb: int) {
    forall j :: |queue| - n <= j < |queue| && 0 <= j ==> queue[j] in ch && ch[queue[j]].size != nb
  }

  /** What the search of s for nb bytes finds: the chunk p, after n chunks of the queue have moved.  It is the
      next chunk of the queue, if that fits exactly, or if it is the last remainder and alone; otherwise the queue
      has been emptied, and p is the last smallest chunk that fits of some bin. */
  ghost predicate Found(s: Lists, lr: int, p: int, nb: int, n: nat) {
    && |s.bins| == NBINS && n <= |s.bins[1]| && Passed(s.ch, s.bins[1], n, nb) && p in Emptying(s, n).ch
    && var q, t := s.bins[1], Emptying(s, n);
       if n < |q| then
         && p == q[|q| - 1 - n] && p in s.ch
         && (s.ch[p].size == nb || (n == |q| - 1 && p == lr && FromRest(s.ch, nb, p)))
       else
         BestFit(t.ch, nb, p) && exists b :: 2 <= b < NBINS && LastFit(t.ch, t.bins[b], p, nb)
  }

  /** The search of s for nb bytes leaves t, and lr1 as the last remainder: it takes the chunk p, or, if nothing
      fits, empties the queue. */
  ghost predicate Searched(s: Lists, t: Lists, lr0: int, lr1: int, p: int, nb: int, req: nat, n: nat) {
    && |s.bins| == NBINS
    && if p == 0 then lr1 == lr0 && t == Emptying(s, |s.bins[1]|)
       else
         && Found(s, lr0, p, nb, n) && p in s.ch && t == Take(Emptying(s, n), p, nb, req)
         && lr1 == Remainder(s.ch[p].size, p, nb, lr0)
  }

  /** What a successful search means for the chunks, whatever bins they are in. */
  ghost predicate Hit(pool: Chunks, t: Lists, lr0: int, lr1: int, p: int, nb: int, req: nat) {
    && p in pool && Rebinned(TakeFrom(pool, p, nb, req), t.ch) && lr1 == Remainder(pool[p].size, p, nb, lr0)
    && |t.bins| == NBINS && (pool[p].size - nb >= MINSIZE ==> t.bins[1] == [p + nb])
  }

  lemma NotFound(s: Lists, lr: int, nb: int, req: nat, n: nat)
    requires |s.bins| == NBINS && n == |s.bins[1]|
    ensures Searched(s, Emptying(s, n), lr, lr, 0, nb, req, n)
  {
  }

  lemma NotFoundIs(s: Lists, t: Lists, lr0: int, lr1: int, nb: int, req: nat, n: nat)
    requires Searched(s, t, lr0, lr1, 0, nb, req, n)
    ensures t == Emptying(s, |s.bins[1]|) && lr1 == lr0
  {
  }

  lemma NoneMoved(s: Lists, nb: int)
    requires |s.bins| == NBINS
    ensures Emptying(s, 0) == s && Passed(s.ch, s.bins[1], 0, nb)
  {
  }

  lemma OneMoreMoved(s: Lists, pool: Chunks, nb: int, n: nat)
    requires |s.bins| == NBINS && n < |s.bins[1]| && Passed(s.ch, s.bins[1], n, nb) && Rebinned(s.ch, pool)
    requires var c := s.bins[1][|s.bins[1]| - 1 - n]; c in pool && pool[c].size != nb
    ensures Emptying(s, n + 1) == Shelve(Emptying(s, n)) && Passed(s.ch, s.bins[1], n + 1, nb)
  {
    hide Shelve;
    var c := s.bins[1][|s.bins[1]| - 1 - n];
    assert c in s.ch && s.ch[c].size == pool[c].size;
  }

  lemma FoundInQueue(s: Lists, pool: Chunks, lr: int, p: int, nb: int, n: nat)
    requires |s.bins| == NBINS && n < |s.bins[1]| && Passed(s.ch, s.bins[1], n, nb) && Rebinned(s.ch, pool)
    requires Emptying(s, n).ch == pool && p in pool && p == s.bins[1][|s.bins[1]| - 1 - n]
    requires pool[p].size == nb || (n == |s.bins[1]| - 1 && p == lr && FromRest(s.ch, nb, p))
    ensures Found(s, lr, p, nb, n) && p in s.ch && s.ch[p].size == pool[p].size
  {
    hide Emptying, FromRest, Passed;
    assert p in s.ch && s.ch[p].size == pool[p].size;
  }

  lemma QueueHit(v: View, pool: Chunks, ch': Chunks, lr: int, p: int, nb: int, req: nat, n: nat, how: Origin)
    requires |v.bins| == NBINS && n < |v.bins[1]| && Passed(v.ch, v.bins[1], n, nb) && Rebinned(v.ch, pool)
    requires Emptying(ListsOf(v), n).ch == pool && p in pool && p != 0 && p == v.bins[1][|v.bins[1]| - 1 - n]
    requires LiveMap(pool) == LiveMap(v.ch) && Taken(pool, ch', p, nb, req) && pool[p].st.Binned?
    requires if how == FromRemainder then n == |v.bins[1]| - 1 && p == lr && FromRest(pool, nb, p)
             else how == FromBin && pool[p].size == nb
    ensures Served(v.ch, ch', p, nb, req, how) && (how == FromRemainder <==> RemainderDue(v, lr, nb))
    ensures Hit(v.ch, Take(Emptying(ListsOf(v), n), p, nb, req), lr, Remainder(pool[p].size, p, nb, lr), p, nb, req)
    ensures var t := Take(Emptying(ListsOf(v), n), p, nb, req);
            Searched(ListsOf(v), t, lr, Remainder(pool[p].size, p, nb, lr), p, nb, req, n)
  {
    hide Emptying, Passed, Rebinned, Taken, Served, LiveMap, Found, NoExactFit, TakeFrom, Remainder, Off;
    if how == FromRemainder {
      ServedRemainder(v.ch, pool, ch', p, nb, req);
    } else {
      ServedExact(v.ch, pool, ch', p, nb, req);
      RemainderNotDue(v, lr, nb);
    }
    FoundInQueue(ListsOf(v), pool, lr, p, nb, n);
    TakeRebinned(v.ch, pool, p, nb, req);
  }

  lemma BinHit(s: Lists, t: Lists, lr: int, p: int, nb: int, req: nat, b: int)
    requires |s.bins| == NBINS && Passed(s.ch, s.bins[1], |s.bins[1]|, nb) && 2 <= b < NBINS && p != 0
    requires t == Emptying(s, |s.bins[1]|) && Rebinned(s.ch, t.ch) && BestFit(t.ch, nb, p)
    requires LastFit(t.ch, t.bins[b], p, nb)
    ensures Searched(s, Take(t, p, nb, req), lr, Remainder(t.ch[p].size, p, nb, lr), p, nb, req, |s.bins[1]|)
    ensures Hit(s.ch, Take(t, p, nb, req), lr, Remainder(t.ch[p].size, p, nb, lr), p, nb, req)
  {
    hide Emptying, LastFit, Passed, TakeFrom, Remainder, Off;
    TakeRebinned(s.ch, t.ch, p, nb, req);
    assert p in s.ch;
  }

  lemma TakeRebinned(a: Chunks, b: Chunks, p: int, nb: int, req: nat)
    requires Rebinned(a, b) && p in b
    ensures p in a && Rebinned(TakeFrom(a, p, nb, req), TakeFrom(b, p, nb, req))
  {
    assert p in a;
  }

  /** The fastbin of nb bytes holds a chunk. */
  predicate FastHit(v: View, nb: int) {
    nb <= 80 && 0 <= nb / 8 - 2 < |v.fast| && v.fast[nb / 8 - 2] != []
  }

  /** The small bin of nb bytes holds a chunk. */
  predicate SmallHit(v: View, nb: int) {
    nb < MIN_LARGE_SIZE && 0 <= nb / 8 < |v.bins| && v.bins[nb / 8] != []
  }

  /** How `malloc` looks through what has been freed: it takes the first chunk of the fastbin; else the last chunk of
      the small bin; else it searches the bins, for a large request after the fastbins have been emptied. */
  ghost predicate LookedThrough(a: Moment, b: Moment, p: int, nb: int, req: nat, n: nat) {
    var v, w := a.v, b.v;
    if FastHit(v, nb) then
      var i := nb / 8 - 2;
      && p == v.fast[i][0] && w.ch == v.ch[p := Chunk(nb, Live(req))] && w.fast == v.fast[i := v.fast[i][1..]]
      && w.bins == v.bins && b.last == a.last
    else if SmallHit(v, nb) then
      var s := v.bins[nb / 8];
      && p == s[|s| - 1] && p in v.ch && |v.bins| == NBINS && ListsOf(w) == Take(ListsOf(v), p, nb, req)
      && w.fast == v.fast && b.last == a.last
    else if nb < MIN_LARGE_SIZE then
      Searched(ListsOf(v), ListsOf(w), a.last, b.last, p, nb, req, n) && w.fast == v.fast
    else
      Searched(Sweep(ListsOf(v), Flat(v.fast)), ListsOf(w), a.last, b.last, p, nb, req, n) && Emptied(w.fast)
  }

  ghost predicate Looked(a: Moment, b: Moment, p: int, nb: int, req: nat) {
    exists n: nat :: LookedThrough(a, b, p, nb, req, n)
  }

  lemma LookedFor(a: Moment, b: Moment, p: int, nb: int, req: nat, n: nat)
    requires LookedThrough(a, b, p, nb, req, n)
    ensures Looked(a, b, p, nb, req)
  {
  }

  // ------------------------------------------------------------ asking the system

  /** The system has to be asked for this many bytes: whole pages that make top large enough. */
  ghost predicate Needs(pool: Chunks, nb: int, page: int, bytes: int)
    requires page > 0
  {
    if pool == map[] then bytes == RoundUp(nb + MINSIZE, page)
    else
      exists t :: t in pool && pool[t].st.Top? && pool[t].size < nb + MINSIZE
                  && bytes == RoundUp(nb + MINSIZE - pool[t].size, page)
  }

  /** The system was asked for the bytes.  A refusal is the end of it; the first memory is followed by a second
      request, for what is missing to its last page.  If that is granted, too, the block is obtained. */
  predicate AskedFor(first: bool, calls0: seq<Call>, calls1: seq<Call>, bytes: int, got: bool) {
    || (calls1 == calls0 + [Asked(bytes, false)] && !got)
    || (calls1 == calls0 + [Asked(bytes, true)] && !first && got)
    || (|calls1| == |calls0| + 2 && first && calls1[..|calls0| + 1] == calls0 + [Asked(bytes, true)]
        && calls1[|calls0| + 1].Asked? && (calls1[|calls0| + 1].granted ==> got))
  }

  /** The system is asked only if nothing in the pool fits, and then for no more than is needed. */
  ghost predicate Asking(pool: Chunks, calls0: seq<Call>, calls1: seq<Call>, page: int, nb: int, got: bool)
    requires page > 0
  {
    && NoFit(pool, nb) && NoFast(pool)
    && exists bytes :: Needs(pool, nb, page, bytes) && AskedFor(pool == map[], calls0, calls1, bytes, got)
  }

  /** The first memory: of the bytes granted from r on, top starts at the first granule.  The second request is for
      what is missing to the end of a page. */
  predicate FirstMemory(r: int, bytes: int, page: int, calls0: seq<Call>, b: Moment)
    requires page > 0
  {
    var v, n := b.v, |calls0| + 1;
    var more := RoundUp(v.base + bytes, page) - (r + bytes);
    && r <= v.base < r + 16 && Granule(v.base) && v.ch == map[v.base := Chunk(v.end - v.base, Top)]
    && |b.calls| == n + 1 && b.calls[n].Asked?
    && b.calls == calls0 + [Asked(bytes, true), Asked(more, b.calls[n].granted)]
    && v.end == r + bytes + if b.calls[n].granted then more else 0
  }

  /** What `sYSMALLOc` obtains: b is the moment a after the system has been asked, with r the break before. */
  ghost predicate Obtained(a: Moment, b: Moment, page: int, nb: int, top: int, r: int, ok: bool)
    requires page > 0
  {
    var v, w := a.v, b.v;
    && (if v.base < v.end then top in v.ch else v.ch == map[])
    && w.bins == v.bins && w.fast == v.fast && b.last == a.last
    && var size := if v.base < v.end then v.ch[top].size else 0;
       var bytes := RoundUp(nb + MINSIZE - size, page);
       if !ok then w == v && b.calls == a.calls + [Asked(bytes, false)]
       else if v.base < v.end then
         && b.calls == a.calls + [Asked(bytes, true)] && w.base == v.base && w.end == v.end + bytes
         && w.ch == v.ch[top := Chunk(size + bytes, Top)]
       else FirstMemory(r, bytes, page, a.calls, b)
  }

  /** If the memory was granted, top is large enough. */
  lemma ObtainedEnough(a: Moment, b: Moment, page: int, nb: int, top: int, r: int, ok: bool) returns (bytes: int)
    requires page > 0 && Granule(page) && Obtained(a, b, page, nb, top, r, ok) && nb >= MINSIZE
    requires TopOK(a.v, top) && TopSmall(a.v, top, nb)
    ensures Needs(a.v.ch, nb, page, bytes)
    ensures !ok || a.v.base < a.v.end ==> b.calls == a.calls + [Asked(bytes, ok)]
    ensures ok && a.v.base < a.v.end ==> a.v.ch != map[] && top in b.v.ch && b.v.ch[top].size >= nb + MINSIZE
    ensures ok && a.v.base >= a.v.end ==>
              && |b.calls| == |a.calls| + 2 && b.calls[..|a.calls| + 1] == a.calls + [Asked(bytes, true)]
              && b.calls[|a.calls| + 1].Asked? && b.v.ch == map[b.v.base := Chunk(b.v.end - b.v.base, Top)]
              && (b.calls[|a.calls| + 1].granted ==> b.v.end - b.v.base >= nb + MINSIZE)
  {
    hide Granule, RoundUp;
    var size := if a.v.base < a.v.end then a.v.ch[top].size else 0;
    bytes := RoundUp(nb + MINSIZE - size, page);
    RoundUpFacts(nb + MINSIZE - size, page);
    if ok && a.v.base >= a.v.end {
      RoundUpFacts(b.v.base + bytes, page);
      assert b.calls[..|a.calls| + 1] == a.calls + [Asked(bytes, true)];
    }
  }

  // ------------------------------------------------------------ malloc

  /** What becomes of the pool: the chunk p is taken whole or split, or the block is cut from the front of top, which
      ends where the heap ends. */
  function After(pool: Chunks, p: int, nb: int, req: nat, how: Origin, end: int): Chunks {
    if how != FromTop && p in pool then TakeFrom(pool, p, nb, req)
    else pool[p := Chunk(nb, Live(req))][p + nb := Chunk(end - p - nb, Top)]
  }

  /** After a failure the pool is as it was, but for the first top, if that was obtained and is too small. */
  ghost predicate NoneTaken(pool: Chunks, v: View) {
    Rebinned(pool, v.ch) || (pool == map[] && v.ch == map[v.base := Chunk(v.end - v.base, Top)])
  }

  /** Where the bins stand after a request: the rest of a chunk that was split is alone in the unsorted queue, and a
      search in vain leaves the queue empty. */
  predicate QueueAfter(bins: seq<List>, pool: Chunks, p: int, nb: int, how: Origin) {
    && |bins| == NBINS
    && (how == FromTop || how == Nowhere ==> bins[1] == [])
    && ((how == FromBin || how == FromRemainder) && p in pool && pool[p].size - nb >= MINSIZE ==> bins[1] == [p + nb])
  }

  /** A fastbin gives up its first chunk, or stays; but a large request, or one that the heap cannot serve as it is,
      empties all fastbins. */
  ghost predicate FastAfter(ch0: Chunks, fast0: seq<List>, fast1: seq<List>, nb: int, how: Origin) {
    if how == FromFast then
      var i := nb / 8 - 2;
      0 <= i < |fast0| && fast0[i] != [] && fast1 == fast0[i := fast0[i][1..]]
    else if nb < MIN_LARGE_SIZE && Available(ch0, nb) then fast1 == fast0
    else Emptied(fast1)
  }

  function NewRemainder(pool: Chunks, p: int, nb: int, how: Origin, last: int): int {
    if (how == FromBin || how == FromRemainder) && p in pool then Remainder(pool[p].size, p, nb, last) else last
  }

  /** The moment b after a request for nb padded bytes, made at the moment a, which chose the chunk p of the pool, or
      found none.  The system is asked only if it has to be, and the request fails only after a refusal. */
  ghost predicate Malloced(a: Moment, b: Moment, page: int, pool: Chunks, p: int, nb: int, req: nat, how: Origin)
    requires page > 0
  {
    && (if p != 0 then Rebinned(After(pool, p, nb, req, how, b.v.end), b.v.ch)
        else how == Nowhere && NoneTaken(pool, b.v))
    && b.last == NewRemainder(pool, p, nb, how, a.last)
    && FastAfter(a.v.ch, a.v.fast, b.v.fast, nb, how) && QueueAfter(b.v.bins, pool, p, nb, how)
    && if b.calls == a.calls then p != 0 && b.v.base == a.v.base && b.v.end == a.v.end
       else Asking(pool, a.calls, b.calls, page, nb, p != 0) && (p != 0 ==> how == FromTop)
  }

  lemma MallocedAsk(a: Moment, m: Moment, b: Moment, page: int, top: int, r: int, ok: bool, top1: int, p: int, nb: int,
                    req: nat)
    requires page > 0 && Granule(page) && Obtained(a, m, page, nb, top, r, ok) && nb >= MINSIZE
    requires TopOK(a.v, top) && TopSmall(a.v, top, nb) && (ok ==> TopOK(m.v, top1) && m.v.base < m.v.end)
             && (a.v.base < a.v.end ==> top1 == top)
    requires NoFit(a.v.ch, nb) && NoFast(a.v.ch) && !Available(a.v.ch, nb) && Emptied(a.v.fast)
    requires b.v.bins == a.v.bins && b.v.fast == a.v.fast && b.v.base == m.v.base && b.v.end == m.v.end
    requires |a.v.bins| == NBINS && a.v.bins[1] == [] && b.calls == m.calls && b.last == a.last
    requires if p == 0 then b.v.ch == m.v.ch && (ok ==> TopSmall(m.v, top1, nb))
             else
               && ok && p == top1
               && b.v.ch == m.v.ch[p := Chunk(nb, Live(req))][p + nb := Chunk(m.v.end - p - nb, Top)]
    ensures Malloced(a, b, page, a.v.ch, p, nb, req, if p == 0 then Nowhere else FromTop)
  {
    hide Granule, RoundUp, Available, NoFit, NoFast, Emptied, Needs, Idle;
    var bytes := ObtainedEnough(a, m, page, nb, top, r, ok);
    assert AskedFor(a.v.ch == map[], a.calls, b.calls, bytes, p != 0);
    if p != 0 {
      assert b.v.ch == After(a.v.ch, p, nb, req, FromTop, b.v.end);
    }
  }

  /** The request is made again, under another number of bytes that pads to the same size. */
  lemma MallocedRetry(a: Moment, c: Moment, b: Moment, b': Moment, page: int, pool: Chunks, p: int, nb: int, asked: nat,
                      req: nat, how: Origin)
    requires page > 0 && nb > 0 && Malloced(c, b, page, pool, p, nb, asked, how)
    requires c.calls == a.calls && c.last == a.last
    requires Emptied(c.v.fast) && c.v.base == a.v.base && c.v.end == a.v.end && !Available(a.v.ch, nb)
    requires if p == 0 then b' == b
             else
               && p in b.v.ch && b.v.ch[p].st == Live(asked)
               && b' == b.(v := b.v.(ch := Mark(b.v.ch, p, Live(req))))
    ensures Malloced(a, b', page, pool, p, nb, req, how)
  {
    hide Available, Asking;
    if p != 0 {
      var x, y := After(pool, p, nb, asked, how, b.v.end), After(pool, p, nb, req, how, b.v.end);
      assert y == Mark(x, p, Live(req));
    }
  }

  /** The same request, seen from the moment before the bins were searched. */
  lemma MallocedFrom(a: Moment, a': Moment, b: Moment, page: int, pool: Chunks, p: int, nb: int, req: nat, how: Origin)
    requires page > 0 && Malloced(a', b, page, pool, p, nb, req, how) && a.calls == a'.calls && a.last == a'.last
    requires a.v.base == a'.v.base && a.v.end == a'.v.end && how != FromFast
    requires nb >= MIN_LARGE_SIZE || (!Available(a.v.ch, nb) && !Available(a'.v.ch, nb))
    ensures Malloced(a, b, page, pool, p, nb, req, how)
  {
    hide Available, Asking, Rebinned, After, QueueAfter, NewRemainder, Emptied, NoneTaken;
  }

  lemma MallocedTop(a: Moment, b: Moment, page: int, pool: Chunks, ch1: Chunks, p: int, nb: int, req: nat)
    requires page > 0 && p != 0 && Rebinned(pool, ch1) && p in ch1 && nb > 0
    requires b.v.ch == ch1[p := Chunk(nb, Live(req))][p + nb := Chunk(b.v.end - p - nb, Top)]
    requires FastAfter(a.v.ch, a.v.fast, b.v.fast, nb, FromTop) && b.v.base == a.v.base && b.v.end == a.v.end
    requires |b.v.bins| == NBINS && b.v.bins[1] == [] && b.calls == a.calls && b.last == a.last
    ensures Malloced(a, b, page, pool, p, nb, req, FromTop)
  {
    hide FastAfter;
    assert p in pool;
  }

  lemma MallocedSearch(a: Moment, b: Moment, page: int, pool: Chunks, p: int, nb: int, req: nat, how: Origin)
    requires page > 0 && p != 0 && Hit(pool, ListsOf(b.v), a.last, b.last, p, nb, req) && b.calls == a.calls
    requires how == FromBin || how == FromRemainder
    requires FastAfter(a.v.ch, a.v.fast, b.v.fast, nb, how) && b.v.base == a.v.base && b.v.end == a.v.end
    ensures Malloced(a, b, page, pool, p, nb, req, how)
  {
    hide FastAfter, Rebinned, TakeFrom, Remainder;
  }

  lemma LookedFast(a: Moment, b: Moment, page: int, p: int, nb: int, req: nat)
    requires page > 0 && p != 0 && p in a.v.ch && a.v.ch[p].size == nb && b.v.ch == a.v.ch[p := Chunk(nb, Live(req))]
    requires FastHit(a.v, nb) && var i := nb / 8 - 2;
             p == a.v.fast[i][0] && b.v.fast == a.v.fast[i := a.v.fast[i][1..]]
    requires b.v.bins == a.v.bins && |a.v.bins| == NBINS && b.v.base == a.v.base && b.v.end == a.v.end
    requires b.calls == a.calls && b.last == a.last
    ensures forall n: nat :: LookedThrough(a, b, p, nb, req, n)
    ensures Malloced(a, b, page, a.v.ch, p, nb, req, FromFast)
  {
    hide Sweep, Flat, Searched, Take, Available;
    RebinnedRefl(b.v.ch);
  }

  lemma LookedSmall(a: Moment, b: Moment, page: int, p: int, nb: int, req: nat)
    requires page > 0 && p != 0 && p in a.v.ch && a.v.ch[p].size == nb && |a.v.bins| == NBINS && 0 < nb / 8 < NBINS
    requires !FastHit(a.v, nb) && SmallHit(a.v, nb) && p == a.v.bins[nb / 8][|a.v.bins[nb / 8]| - 1]
    requires ListsOf(b.v) == Take(ListsOf(a.v), p, nb, req) && b.v.fast == a.v.fast && b.v.base == a.v.base
             && b.v.end == a.v.end
    requires Available(a.v.ch, nb) && b.calls == a.calls && b.last == a.last
    ensures forall n: nat :: LookedThrough(a, b, p, nb, req, n)
    ensures Malloced(a, b, page, a.v.ch, p, nb, req, FromBin)
  {
    hide Sweep, Flat, Searched, Malloced, Available, Off;
    RebinnedRefl(b.v.ch);
    MallocedSearch(a, b, page, a.v.ch, p, nb, req, FromBin);
  }

  /** A search, or the use of top, finds the fastbins as they were left. */
  lemma FastKept(v: View, fast1: seq<List>, nb: int, how: Origin)
    requires how != FromFast
    requires if nb < MIN_LARGE_SIZE then fast1 == v.fast && Available(v.ch, nb) else Emptied(fast1)
    ensures FastAfter(v.ch, v.fast, fast1, nb, how)
  {
    hide Available, Emptied;
  }

  /** A search of the lists s, for which the fastbins were left or emptied. */
  lemma LookedFurther(a: Moment, s: Lists, b: Moment, page: int, p: int, nb: int, req: nat, n: nat, how: Origin)
    requires page > 0 && Searched(s, ListsOf(b.v), a.last, b.last, p, nb, req, n)
    requires !FastHit(a.v, nb) && !SmallHit(a.v, nb)
    requires if nb < MIN_LARGE_SIZE then s == ListsOf(a.v) && b.v.fast == a.v.fast
             else s == Sweep(ListsOf(a.v), Flat(a.v.fast)) && Emptied(b.v.fast)
    requires p != 0 ==>
               && Hit(s.ch, ListsOf(b.v), a.last, b.last, p, nb, req) && (how == FromBin || how == FromRemainder)
               && (nb < MIN_LARGE_SIZE ==> Available(s.ch, nb))
    requires b.calls == a.calls && b.v.base == a.v.base && b.v.end == a.v.end
    ensures Looked(a, b, p, nb, req)
    ensures p != 0 ==> Malloced(a, b, page, s.ch, p, nb, req, how)
  {
    hide Sweep, Flat, Searched, Emptied, Hit, Available, Malloced;
    LookedFor(a, b, p, nb, req, n);
    if p != 0 {
      FastKept(a.v, b.v.fast, nb, how);
      MallocedSearch(a, b, page, s.ch, p, nb, req, how);
    }
  }

  lemma AllEmptied(fast: seq<List>)
    requires forall i :: 0 <= i < |fast| ==> fast[i] == []
    ensures Emptied(fast)
  {
  }

  /** Only the chunks, the fastbins and the extent of the heap before matter. */
  lemma MallocedSame(a: Moment, a': Moment, b: Moment, page: int, pool: Chunks, p: int, nb: int, req: nat, how: Origin)
    requires page > 0 && Malloced(a', b, page, pool, p, nb, req, how) && a.calls == a'.calls && a.last == a'.last
    requires a.v.ch == a'.v.ch && a.v.fast == a'.v.fast && a.v.base == a'.v.base && a.v.end == a'.v.end
    ensures Malloced(a, b, page, pool, p, nb, req, how)
  {
  }

  lemma NowhereIs(a: Moment, b: Moment, page: int, pool: Chunks, p: int, nb: int, req: nat, how: Origin)
    requires page > 0 && Malloced(a, b, page, pool, p, nb, req, how)
    ensures p == 0 ==> how == Nowhere
  {
  }

  /** A request fails only if the system refused memory. */
  lemma FailsRefused(a: Moment, b: Moment, page: int, pool: Chunks, nb: int, req: nat, how: Origin)
    requires page > 0 && Malloced(a, b, page, pool, 0, nb, req, how)
    ensures Refused(a.calls, b.calls)
  {
    hide Needs, NoFit, NoFast, FastAfter, QueueAfter, NewRemainder, NoneTaken;
    var bytes :| Needs(pool, nb, page, bytes) && AskedFor(pool == map[], a.calls, b.calls, bytes, false);
    assert b.calls[..|a.calls|] == a.calls;
  }

  // ------------------------------------------------------------ free

  /** The whole pages that can be taken from the end of a top of the given size: some bytes more than MINSIZE, and
      at most a page of them, are kept. */
  function Spare(size: int, page: int): int
    requires page > 0
  {
    ((size - MINSIZE + (page - 1)) / page - 1) * page
  }

  lemma SpareIs(size: int, page: int)
    requires page > 0
    ensures Spare(size, page) % page == 0
    ensures size > MINSIZE ==> 0 <= Spare(size, page) < size - MINSIZE <= Spare(size, page) + page
  {
    var x := size - MINSIZE + (page - 1);
    var q := x / page;
    assert x == q * page + x % page;
    MultipleMod(q - 1, page);
    assert (q - 1) * page == q * page - page;
    assert size > MINSIZE ==> x >= page && q >= 1;
  }

  /** b has the chunks ch1, in a heap that ended at end0, but a top of 256 KiB or more is offered to the system but for
      its last page. */
  ghost predicate Returned(ch1: Chunks, end0: int, calls0: seq<Call>, b: Moment, page: int)
    requires page > 0
  {
    exists t :: t in ch1 && ch1[t].st.Top? && TopReturned(t, ch1, end0, calls0, b, page)
  }

  predicate TopReturned(t: int, ch1: Chunks, end0: int, calls0: seq<Call>, b: Moment, page: int)
    requires page > 0 && t in ch1
  {
    var size := ch1[t].size;
    var extra, taken := Spare(size, page), end0 - b.v.end;
    if size < 262144 || extra <= 0 then b.v.ch == ch1 && b.v.end == end0 && b.calls == calls0
    else
      && 0 <= taken <= extra && b.v.ch == ch1[t := Chunk(size - taken, Top)]
      && b.calls == calls0 + [Offered(extra, taken)]
  }

  /** After the chunk p has been freed: a chunk of at most 80 bytes goes to the front of its fastbin and nothing else
      changes; a larger one is joined with its neighbours; if 128 KiB or more result, the fastbins are emptied and top
      is trimmed. */
  ghost predicate Freed(a: Moment, b: Moment, page: int, p: int)
    requires p in a.v.ch && page > 0
  {
    var v, w, size := a.v, b.v, a.v.ch[p].size;
    && w.base == v.base && b.last == a.last
    && if size <= 80 then
         && 0 <= size / 8 - 2 < |v.fast| && w.fast == v.fast[size / 8 - 2 := [p] + v.fast[size / 8 - 2]]
         && w.ch == v.ch[p := Chunk(size, Fast)] && w.bins == v.bins && w.end == v.end && b.calls == a.calls
       else if JoinedSize(v.ch, p) < 131072 then
         ListsOf(w) == Joined(ListsOf(v), p) && w.fast == v.fast && w.end == v.end && b.calls == a.calls
       else
         var s := Sweep(Joined(ListsOf(v), p), Flat(v.fast));
         w.bins == s.bins && |w.fast| == |v.fast| && Emptied(w.fast) && Returned(s.ch, v.end, a.calls, b, page)
  }

  lemma FreedFast(a: Moment, b: Moment, page: int, p: int)
    requires page > 0 && p in a.v.ch && a.v.ch[p].size <= 80
    requires var i := a.v.ch[p].size / 8 - 2;
             && 0 <= i < |a.v.fast| && b.v.fast == a.v.fast[i := [p] + a.v.fast[i]]
             && b.v.ch == a.v.ch[p := Chunk(a.v.ch[p].size, Fast)] && b.v.bins == a.v.bins
    requires b.v.base == a.v.base && b.v.end == a.v.end && b.calls == a.calls && b.last == a.last
    ensures Freed(a, b, page, p)
  {
    hide Joined, JoinedSize, Sweep, Flat, Emptied, Returned;
  }

  lemma FreedJoin(a: Moment, m: Moment, b: Moment, page: int, p: int)
    requires page > 0 && p in a.v.ch && a.v.ch[p].size > 80 && ListsOf(m.v) == Joined(ListsOf(a.v), p)
    requires m.v.fast == a.v.fast && m.v.base == a.v.base && m.v.end == a.v.end
    requires m.calls == a.calls && m.last == a.last
    requires if JoinedSize(a.v.ch, p) < 131072 then b == m
             else
               var s := Sweep(ListsOf(m.v), Flat(m.v.fast));
               && b.v.bins == s.bins && |b.v.fast| == |m.v.fast| && Emptied(b.v.fast)
               && b.v.base == m.v.base && b.last == m.last && Returned(s.ch, m.v.end, m.calls, b, page)
    ensures Freed(a, b, page, p)
  {
    hide Joined, JoinedSize, Sweep, Flat, Emptied, Returned;
  }

  /** A chunk of more than 80 bytes enters no fastbin; unless 128 KiB result, its bytes are then in top or in the first
      chunk of the unsorted queue. */
  lemma FreedLarge(a: Moment, b: Moment, page: int, p: int)
    requires Core(a.v) && |a.v.bins| == NBINS && p in a.v.ch && page > 0 && Freed(a, b, page, p)
    requires a.v.ch[p].size > 80
    ensures |b.v.fast| == |a.v.fast|
    ensures forall i :: 0 <= i < |b.v.fast| ==> b.v.fast[i] == a.v.fast[i] || b.v.fast[i] == []
    ensures JoinedSize(a.v.ch, p) < 131072 ==>
              var c, w := FrontOf(a.v.ch, p), b.v;
              && c in w.ch && c <= p && Next(a.v.ch, p) <= Next(w.ch, c) && |w.bins| == NBINS
              && (w.ch[c].st.Top? || (w.bins[1] != [] && w.bins[1][0] == c))
    ensures JoinedSize(a.v.ch, p) >= 131072 ==> forall i :: 0 <= i < |b.v.fast| ==> b.v.fast[i] == []
  {
    hide Core, Joined, JoinedSize, Sweep, Flat, Returned, FrontOf;
    JoinedAround(a.v, p);
  }

  // ------------------------------------------------------------ realloc

  /** The same chunks, lists, extent, calls and last remainder. */
  predicate Unchanged(a: Moment, b: Moment) {
    && ListsOf(b.v) == ListsOf(a.v) && b.v.fast == a.v.fast && b.v.base == a.v.base && b.v.end == a.v.end
    && b.calls == a.calls && b.last == a.last
  }

  /** The moment with other chunks. */
  function With(a: Moment, ch: Chunks): Moment {
    a.(v := a.v.(ch := ch))
  }

  /** The end of `realloc`: if the block p can be cut into nb bytes and a chunk, that chunk is freed. */
  ghost predicate Finished(a: Moment, b: Moment, page: int, p: int, nb: int, req: nat)
    requires p in a.v.ch && page > 0
  {
    if a.v.ch[p].size - nb < MINSIZE then Unchanged(With(a, Mark(a.v.ch, p, Live(req))), b)
    else Freed(With(a, Cut(a.v.ch, p, nb, Live(req), Held)), b, page, p + nb)
  }

  /** Only the chunks, the lists and the extent of the heap before matter. */
  lemma FreedSame(a: Moment, a': Moment, b: Moment, page: int, p: int)
    requires page > 0 && p in a'.v.ch && Freed(a', b, page, p) && Unchanged(a', a)
    ensures Freed(a, b, page, p)
  {
    hide Joined, JoinedSize, Sweep, Flat, Emptied, Returned;
  }

  lemma OnlyChunks(a: Moment, w: View, ch: Chunks)
    requires w.ch == ch && w.bins == a.v.bins && w.fast == a.v.fast && w.base == a.v.base && w.end == a.v.end
    ensures Unchanged(With(a, ch), Moment(w, a.calls, a.last))
  {
  }

  /** What p was used for does not matter. */
  lemma FinishedSame(a: Moment, a': Moment, b: Moment, page: int, p: int, nb: int, req: nat)
    requires page > 0 && p in a'.v.ch && Finished(a', b, page, p, nb, req)
    requires p in a.v.ch && a'.v.ch[p].size == a.v.ch[p].size && a'.v.ch == a.v.ch[p := a'.v.ch[p]]
    requires a'.v.bins == a.v.bins && a'.v.fast == a.v.fast && a'.v.base == a.v.base && a'.v.end == a.v.end
    requires a'.calls == a.calls && a'.last == a.last
    ensures Finished(a, b, page, p, nb, req)
  {
    hide Freed, Mark, Cut, Unchanged, With;
    MarkOver(a.v.ch, a'.v.ch, p, nb, Live(req), Held);
    WithSame(a, a', Mark(a.v.ch, p, Live(req)));
    WithSame(a, a', Cut(a.v.ch, p, nb, Live(req), Held));
    if a.v.ch[p].size - nb < MINSIZE {
      UnchangedTrans(With(a, Mark(a.v.ch, p, Live(req))), With(a', Mark(a.v.ch, p, Live(req))), b);
    } else {
      CutParts(a'.v.ch, p, nb, Live(req), Held);
      var ch1 := Cut(a.v.ch, p, nb, Live(req), Held);
      FreedSame(With(a, ch1), With(a', ch1), b, page, p + nb);
    }
  }

  lemma WithSame(a: Moment, a': Moment, ch: Chunks)
    requires a'.v.bins == a.v.bins && a'.v.fast == a.v.fast && a'.v.base == a.v.base && a'.v.end == a.v.end
    requires a'.calls == a.calls && a'.last == a.last
    ensures Unchanged(With(a, ch), With(a', ch)) && Unchanged(With(a', ch), With(a, ch)) && With(a', ch).v.ch == ch
  {
  }

  lemma UnchangedTrans(a: Moment, b: Moment, c: Moment)
    requires Unchanged(a, b) && Unchanged(b, c)
    ensures Unchanged(a, c)
  {
  }

  lemma MarkOver(ch: Chunks, ch': Chunks, p: int, k: int, st: Status, rest: Status)
    requires p in ch && p in ch' && ch'[p].size == ch[p].size && ch' == ch[p := ch'[p]]
    ensures Mark(ch', p, st) == Mark(ch, p, st) && Cut(ch', p, k, st, rest) == Cut(ch, p, k, st, rest)
  {
    assert ch'[p := Chunk(k, st)] == ch[p := Chunk(k, st)];
  }

  lemma CutParts(ch: Chunks, p: int, k: int, st: Status, rest: Status)
    requires p in ch
    ensures p + k in Cut(ch, p, k, st, rest)
  {
  }

  lemma FinishedCut(a: Moment, a': Moment, b: Moment, page: int, p: int, nb: int, req: nat)
    requires page > 0 && p in a.v.ch && a.v.ch[p].size - nb >= MINSIZE
    requires Unchanged(With(a, Cut(a.v.ch, p, nb, Live(req), Held)), a') && Freed(a', b, page, p + nb)
    ensures Finished(a, b, page, p, nb, req)
  {
    hide Freed;
    FreedSame(With(a, Cut(a.v.ch, p, nb, Live(req), Held)), a', b, page, p + nb);
  }

  /** `malloc` chose p, or 0. */
  ghost predicate Allocated(a: Moment, b: Moment, page: int, p: int, nb: int, req: nat)
    requires page > 0
  {
    exists pool, how :: PoolOf(a.v.ch, a.v.base, a.v.end, pool, nb)
                        && (p != 0 ==> Chosen(a.v.ch, pool, b.v.ch, p, nb, req, how))
                        && Malloced(a, b, page, pool, p, nb, req, how)
  }

  lemma AllocatedBy(a: Moment, b: Moment, page: int, pool: Chunks, p: int, nb: int, req: nat, how: Origin)
    requires page > 0 && PoolOf(a.v.ch, a.v.base, a.v.end, pool, nb)
    requires p != 0 ==> Chosen(a.v.ch, pool, b.v.ch, p, nb, req, how)
    requires Malloced(a, b, page, pool, p, nb, req, how)
    ensures Allocated(a, b, page, p, nb, req)
  {
  }

  /** The block p of `size` bytes moves to the new block q of a: if that is the chunk behind p, the two are joined;
      otherwise p is freed. */
  ghost predicate MovedTo(a: Moment, b: Moment, page: int, p: int, size: int, q: int, nb: int, req: nat, p': int)
    requires page > 0
  {
    if q == 0 then p' == 0 && Unchanged(a, b)
    else
      && p in a.v.ch && q in a.v.ch
      && if q == p + size then
           var joined := (a.v.ch - {q})[p := Chunk(size + a.v.ch[q].size, Live(req))];
           p' == p && Finished(With(a, joined), b, page, p, nb, req)
         else p' == q && Freed(With(a, Mark(a.v.ch, q, Live(req))), b, page, p)
  }

  /** `realloc` has to move the block. */
  ghost predicate Relocated(a: Moment, b: Moment, page: int, p: int, size: int, nb: int, req: nat, p': int)
    requires page > 0
  {
    nb >= ALIGN_MASK
    && exists m, q :: Allocated(a, m, page, q, nb, nb - ALIGN_MASK) && MovedTo(m, b, page, p, size, q, nb, req, p')
  }

  lemma RelocatedBy(a: Moment, m: Moment, b: Moment, page: int, p: int, size: int, q: int, nb: int, req: nat, p': int)
    requires page > 0 && nb >= ALIGN_MASK && Allocated(a, m, page, q, nb, nb - ALIGN_MASK)
    requires MovedTo(m, b, page, p, size, q, nb, req, p')
    ensures Relocated(a, b, page, p, size, nb, req, p')
  {
  }

  lemma NotMoved(a: Moment, page: int, p: int, size: int, nb: int, req: nat)
    requires page > 0
    ensures MovedTo(a, a, page, p, size, 0, nb, req, 0)
  {
  }

  lemma MovedBehind(a: Moment, b: Moment, page: int, p: int, size: int, q: int, nb: int, req: nat)
    requires page > 0 && q != 0 && p in a.v.ch && q in a.v.ch && q == p + size
    requires var joined := (a.v.ch - {q})[p := Chunk(size + a.v.ch[q].size, Live(req))];
             Finished(With(a, joined), b, page, p, nb, req)
    ensures MovedTo(a, b, page, p, size, q, nb, req, p)
  {
    hide Finished;
  }

  lemma MovedAway(a: Moment, a': Moment, b: Moment, page: int, p: int, size: int, q: int, nb: int, req: nat)
    requires page > 0 && q != 0 && p in a.v.ch && q in a.v.ch && q != p + size
    requires Unchanged(With(a, Mark(a.v.ch, q, Live(req))), a') && Freed(a', b, page, p)
    ensures MovedTo(a, b, page, p, size, q, nb, req, q)
  {
    hide Freed;
    FreedSame(With(a, Mark(a.v.ch, q, Live(req))), a', b, page, p);
  }

  /** The chunk p has the bytes already. */
  predicate LargeEnough(ch: Chunks, p: int, nb: int) {
    p in ch && ch[p].size >= nb
  }

  /** The chunk behind p is top, and leaves a chunk if p gets the bytes from it. */
  predicate IntoTop(ch: Chunks, p: int, nb: int) {
    && p in ch && ch[p].size < nb
    && Next(ch, p) in ch && ch[Next(ch, p)].st.Top? && ch[p].size + ch[Next(ch, p)].size >= nb + MINSIZE
  }

  /** The chunk behind p is free, and the two have the bytes. */
  predicate IntoNext(ch: Chunks, p: int, nb: int) {
    && p in ch && ch[p].size < nb
    && Next(ch, p) in ch && Idle(ch[Next(ch, p)]) && ch[p].size + ch[Next(ch, p)].size >= nb
  }

  /** `realloc` can leave the block where it is. */
  predicate Stays(ch: Chunks, p: int, nb: int) {
    LargeEnough(ch, p, nb) || IntoTop(ch, p, nb) || IntoNext(ch, p, nb)
  }

  /** `realloc` of the block p to nb padded bytes: the block stays where it is whenever it can, without asking the
      system for memory; only otherwise a new one is allocated. */
  ghost predicate Reallocated(a: Moment, b: Moment, page: int, p: int, nb: int, req: nat, p': int)
    requires page > 0 && p in a.v.ch
  {
    var ch, n := a.v.ch, Next(a.v.ch, p);
    if LargeEnough(ch, p, nb) then p' == p && Finished(a, b, page, p, nb, req)
    else if IntoTop(ch, p, nb) then
      var rest := ch[p].size + ch[n].size - nb;
      p' == p && Unchanged(With(a, (ch - {n})[p := Chunk(nb, Live(req))][p + nb := Chunk(rest, Top)]), b)
    else if IntoNext(ch, p, nb) then
      var joined := (ch - {n})[p := Chunk(ch[p].size + ch[n].size, Live(req))];
      p' == p && Finished(a.(v := a.v.(ch := joined, bins := Off(a.v.bins, n))), b, page, p, nb, req)
    else Relocated(a, b, page, p, ch[p].size, nb, req, p')
  }

  lemma ReallocatedHere(a: Moment, b: Moment, page: int, p: int, nb: int, req: nat)
    requires page > 0 && p in a.v.ch && LargeEnough(a.v.ch, p, nb) && Finished(a, b, page, p, nb, req)
    ensures Reallocated(a, b, page, p, nb, req, p) && !IntoTop(a.v.ch, p, nb)
  {
    hide Finished, Relocated, Off;
  }

  lemma ReallocatedTop(a: Moment, b: Moment, page: int, p: int, nb: int, req: nat)
    requires page > 0 && IntoTop(a.v.ch, p, nb)
    requires var ch, n := a.v.ch, Next(a.v.ch, p);
             var rest := ch[p].size + ch[n].size - nb;
             Unchanged(With(a, (ch - {n})[p := Chunk(nb, Live(req))][p + nb := Chunk(rest, Top)]), b)
    ensures Reallocated(a, b, page, p, nb, req, p)
  {
    hide Finished, Relocated, Off;
  }

  lemma ReallocatedNext(a: Moment, b: Moment, page: int, p: int, nb: int, req: nat)
    requires page > 0 && IntoNext(a.v.ch, p, nb)
    requires var ch, n := a.v.ch, Next(a.v.ch, p);
             var joined := (ch - {n})[p := Chunk(ch[p].size + ch[n].size, Live(req))];
             Finished(a.(v := a.v.(ch := joined, bins := Off(a.v.bins, n))), b, page, p, nb, req)
    ensures Reallocated(a, b, page, p, nb, req, p) && !IntoTop(a.v.ch, p, nb)
  {
    hide Finished, Relocated, Off;
  }

  lemma ReallocatedMove(a: Moment, b: Moment, page: int, p: int, nb: int, req: nat, p': int)
    requires page > 0 && p in a.v.ch && !Stays(a.v.ch, p, nb)
    requires Relocated(a, b, page, p, a.v.ch[p].size, nb, req, p')
    ensures Reallocated(a, b, page, p, nb, req, p')
  {
    hide Finished, Relocated, Off;
  }

  // ------------------------------------------------------------ memalign

  /** The first `lead` bytes of the block q are given back. */
  ghost predicate LeadDropped(a: Moment, b: Moment, page: int, q: int, lead: int)
    requires page > 0
  {
    && q in a.v.ch
    && if lead == 0 then Unchanged(a, b)
       else
         var rest := a.v.ch[q].size - lead;
         rest >= 8 && Freed(With(a, Cut(a.v.ch, q, lead, Held, Live(rest - 8))), b, page, q)
  }

  /** What exceeds nb bytes of the block p is given back, if it is more than MINSIZE bytes. */
  ghost predicate TailDropped(a: Moment, b: Moment, page: int, p: int, nb: int, req: nat)
    requires page > 0
  {
    && p in a.v.ch
    && if a.v.ch[p].size <= nb + MINSIZE then Unchanged(With(a, Mark(a.v.ch, p, Live(req))), b)
       else Freed(With(a, Cut(a.v.ch, p, nb, Live(req), Held)), b, page, p + nb)
  }

  lemma TailDroppedCut(a: Moment, a': Moment, b: Moment, page: int, p: int, nb: int, req: nat)
    requires page > 0 && p in a.v.ch && a.v.ch[p].size > nb + MINSIZE
    requires Unchanged(With(a, Cut(a.v.ch, p, nb, Live(req), Held)), a') && Freed(a', b, page, p + nb)
    ensures TailDropped(a, b, page, p, nb, req)
  {
    hide Freed;
    FreedSame(With(a, Cut(a.v.ch, p, nb, Live(req), Held)), a', b, page, p + nb);
  }

  lemma TailKept(a: Moment, b: Moment, page: int, p: int, nb: int, req: nat)
    requires page > 0 && p in a.v.ch && a.v.ch[p].size <= nb + MINSIZE
    requires Unchanged(With(a, Mark(a.v.ch, p, Live(req))), b)
    ensures TailDropped(a, b, page, p, nb, req)
  {
  }

  /** The part of a block that lies in front of the aligned spot: none, or enough for a chunk, and no more than that. */
  predicate Lead(lead: int, m: int, align: int)
    requires align > 0
  {
    (m + lead) % align == 0 && (lead == 0 || (MINSIZE <= lead < MINSIZE + align && m % align != 0))
  }

  lemma LeadIs(m: int, align: int)
    requires align >= MINSIZE && Granule(align) && Granule(m)
    ensures Lead(LeadOf(m, align), m, align) && (LeadOf(m, align) == 0 <==> m % align == 0)
  {
    hide Granule;
    LeadFacts(m, align);
  }

  /** `memalign`: a block for nb + align + 48 padded bytes is allocated, and what is in front of the first aligned spot
      and behind the request is given back. */
  ghost predicate CutOut(a: Moment, b: Moment, page: int, align: nat, nb: int, req: nat, mem: int)
    requires page > 0
  {
    align > 0 && nb >= 0 && exists m, q :: CutOutFrom(a, m, b, page, align, nb, req, q, mem)
  }

  ghost predicate CutOutFrom(a: Moment, m: Moment, b: Moment, page: int, align: nat, nb: nat, req: nat, q: int,
                             mem: int)
    requires page > 0 && align > 0
  {
    && Allocated(a, m, page, q, nb + align + 48, nb + align + MINSIZE)
    && if q == 0 then mem == 0 && Unchanged(m, b)
       else
         var lead := mem - 16 - q;
         && Lead(lead, q + 16, align)
         && exists m' :: LeadDropped(m, m', page, q, lead) && TailDropped(m', b, page, q + lead, nb, req)
  }

  lemma LeadDroppedIs(a: Moment, b: Moment, page: int, q: int, lead: int)
    requires page > 0 && q in a.v.ch
    requires if lead == 0 then b == a
             else
               var rest := a.v.ch[q].size - lead;
               rest >= 8 && Freed(With(a, Cut(a.v.ch, q, lead, Held, Live(rest - 8))), b, page, q)
    ensures LeadDropped(a, b, page, q, lead)
  {
    hide Freed;
  }

  lemma CutOutNone(a: Moment, b: Moment, page: int, align: nat, nb: nat, req: nat)
    requires page > 0 && align > 0 && Allocated(a, b, page, 0, nb + align + 48, nb + align + MINSIZE)
    ensures CutOut(a, b, page, align, nb, req, 0)
  {
    hide Allocated;
    assert CutOutFrom(a, b, b, page, align, nb, req, 0, 0);
  }

  lemma CutOutBy(a: Moment, m: Moment, m': Moment, b: Moment, page: int, align: nat, nb: nat, req: nat, q: int,
                 lead: int)
    requires page > 0 && align > 0 && q != 0 && Lead(lead, q + 16, align)
    requires Allocated(a, m, page, q, nb + align + 48, nb + align + MINSIZE)
    requires LeadDropped(m, m', page, q, lead) && TailDropped(m', b, page, q + lead, nb, req)
    ensures CutOut(a, b, page, align, nb, req, q + lead + 16)
  {
    hide Allocated, LeadDropped, TailDropped, Lead;
    assert CutOutFrom(a, m, b, page, align, nb, req, q, q + lead + 16);
  }

  // ------------------------------------------------------------ the calls of the system only add up

  lemma FreedGrows(a: Moment, b: Moment, page: int, p: int)
    requires page > 0 && p in a.v.ch && Freed(a, b, page, p)
    ensures a.calls <= b.calls
  {
    hide Joined, JoinedSize, Sweep, Flat, Emptied, Spare;
  }

  lemma FinishedGrows(a: Moment, b: Moment, page: int, p: int, nb: int, req: nat)
    requires page > 0 && p in a.v.ch && Finished(a, b, page, p, nb, req)
    ensures a.calls <= b.calls
  {
    hide Freed;
    if a.v.ch[p].size - nb >= MINSIZE {
      FreedGrows(With(a, Cut(a.v.ch, p, nb, Live(req), Held)), b, page, p + nb);
    }
  }

  lemma MallocedGrows(a: Moment, b: Moment, page: int, pool: Chunks, p: int, nb: int, req: nat, how: Origin)
    requires page > 0 && Malloced(a, b, page, pool, p, nb, req, how)
    ensures a.calls <= b.calls
  {
    hide Needs, NoFit, NoFast, FastAfter, QueueAfter, NewRemainder, Rebinned, After, NoneTaken;
    if b.calls != a.calls {
      var bytes :| Needs(pool, nb, page, bytes) && AskedFor(pool == map[], a.calls, b.calls, bytes, p != 0);
    }
  }

  lemma AllocatedGrows(a: Moment, b: Moment, page: int, p: int, nb: int, req: nat)
    requires page > 0 && Allocated(a, b, page, p, nb, req)
    ensures a.calls <= b.calls
  {
    hide Malloced, PoolOf, Chosen;
    var pool, how :| PoolOf(a.v.ch, a.v.base, a.v.end, pool, nb)
                     && (p != 0 ==> Chosen(a.v.ch, pool, b.v.ch, p, nb, req, how))
                     && Malloced(a, b, page, pool, p, nb, req, how);
    MallocedGrows(a, b, page, pool, p, nb, req, how);
  }

  lemma MovedToGrows(a: Moment, b: Moment, page: int, p: int, size: int, q: int, nb: int, req: nat, p': int)
    requires page > 0 && MovedTo(a, b, page, p, size, q, nb, req, p')
    ensures a.calls <= b.calls
  {
    hide Freed, Finished;
    if q != 0 {
      if q == p + size {
        var joined := (a.v.ch - {q})[p := Chunk(size + a.v.ch[q].size, Live(req))];
        FinishedGrows(With(a, joined), b, page, p, nb, req);
      } else {
        FreedGrows(With(a, Mark(a.v.ch, q, Live(req))), b, page, p);
      }
    }
  }

  lemma ReallocatedGrows(a: Moment, b: Moment, page: int, p: int, nb: int, req: nat, p': int)
    requires page > 0 && p in a.v.ch && Reallocated(a, b, page, p, nb, req, p')
    ensures a.calls <= b.calls
  {
    hide Finished, Allocated, MovedTo, Off;
    var ch, n := a.v.ch, Next(a.v.ch, p);
    if LargeEnough(ch, p, nb) {
      FinishedGrows(a, b, page, p, nb, req);
    } else if !IntoTop(ch, p, nb) {
      if IntoNext(ch, p, nb) {
        var joined := (ch - {n})[p := Chunk(ch[p].size + ch[n].size, Live(req))];
        FinishedGrows(a.(v := a.v.(ch := joined, bins := Off(a.v.bins, n))), b, page, p, nb, req);
      } else {
        var m, q :| Allocated(a, m, page, q, nb, nb - ALIGN_MASK) && MovedTo(m, b, page, p, ch[p].size, q, nb, req, p');
        AllocatedGrows(a, m, page, q, nb, nb - ALIGN_MASK);
        MovedToGrows(m, b, page, p, ch[p].size, q, nb, req, p');
      }
    }
  }

  lemma LeadDroppedGrows(a: Moment, b: Moment, page: int, q: int, lead: int)
    requires page > 0 && LeadDropped(a, b, page, q, lead)
    ensures a.calls <= b.calls
  {
    hide Freed;
    if lead != 0 {
      FreedGrows(With(a, Cut(a.v.ch, q, lead, Held, Live(a.v.ch[q].size - lead - 8))), b, page, q);
    }
  }

  lemma TailDroppedGrows(a: Moment, b: Moment, page: int, p: int, nb: int, req: nat)
    requires page > 0 && TailDropped(a, b, page, p, nb, req)
    ensures a.calls <= b.calls
  {
    hide Freed;
    if a.v.ch[p].size > nb + MINSIZE {
      FreedGrows(With(a, Cut(a.v.ch, p, nb, Live(req), Held)), b, page, p + nb);
    }
  }

  lemma CutOutGrows(a: Moment, b: Moment, page: int, align: nat, nb: int, req: nat, mem: int)
    requires page > 0 && CutOut(a, b, page, align, nb, req, mem)
    ensures a.calls <= b.calls
  {
    hide Allocated, LeadDropped, TailDropped, Lead;
    var m, q :| CutOutFrom(a, m, b, page, align, nb, req, q, mem);
    AllocatedGrows(a, m, page, q, nb + align + 48, nb + align + MINSIZE);
    if q != 0 {
      var lead := mem - 16 - q;
      var m' :| LeadDropped(m, m', page, q, lead) && TailDropped(m', b, page, q + lead, nb, req);
      LeadDroppedGrows(m, m', page, q, lead);
      TailDroppedGrows(m', b, page, q + lead, nb, req);
    }
  }
}
