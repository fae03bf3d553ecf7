/** One memory: the header fields of all chunks and the words of the users, each where the C structure puts
    it, never overlap, so the four maps of fields are views of a single map of words. */
module Memory {
  import opened Sizes
  import opened Layout
  import opened Shelves
  import opened HeapView
  import opened Contents

  /** A place that holds something: a field of the chunk at c, or a word of a user. */
  datatype Slot = PrevSize(c: int) | Size(c: int) | Forward(c: int) | Backward(c: int) | Stored(a: int)

  /** Where it lies, from the layout of `malloc_chunk`. */
  function Address(s: Slot): int {
    match s
    case PrevSize(c) => c
    case Size(c) => c + 8
    case Forward(c) => c + 16
    case Backward(c) => c + 24
    case Stored(a) => a
  }

  /** Whether it means anything: every chunk has a size; `prev_size` is valid behind a free chunk; both links
      are valid in a bin, the first one also in a fastbin. */
  ghost predicate Meaningful(v: View, s: Slot) {
    match s
    case PrevSize(c) => c in v.ch && !FrontUsed(v.ch, v.sz, c)
    case Size(c) => c in v.ch
    case Forward(c) => c in v.ch && (v.ch[c].st.Binned? || v.ch[c].st.Fast?)
    case Backward(c) => c in v.ch && v.ch[c].st.Binned?
    case Stored(a) => a in v.stored
  }

  ghost function Content(v: View, s: Slot): int
    requires Meaningful(v, s)
  {
    match s
    case PrevSize(c) => Rd(v.psz, c)
    case Size(c) => Rd(v.sz, c)
    case Forward(c) => Rd(v.fd, c)
    case Backward(c) => Rd(v.bk, c)
    case Stored(a) => v.stored[a].word
  }

  /** The fields of two chunks are apart. */
  lemma FieldsApart(v: View, s: Slot, t: Slot)
    requires Core(v) && Meaningful(v, s) && Meaningful(v, t) && !s.Stored? && !t.Stored? && Address(s) == Address(t)
    ensures s == t
  {
    hide Core, Granule, Word;
    HeaderFacts(v, s.c);
    HeaderFacts(v, t.c);
    ApartFrom(v, s.c, t.c);
    ApartFrom(v, t.c, s.c);
  }

  /** A user's word is none of the fields. */
  lemma WordsApart(v: View, a: int, t: Slot)
    requires Core(v) && a in v.stored && Meaningful(v, t) && !t.Stored?
    ensures Address(t) != a
  {
    hide Granule, Word;
    assert StoredAt(v, a);
    StoredPlace(v, a);
    hide Core;
    var c := v.stored[a].block;
    HeaderFacts(v, c);
    if t.PrevSize? && t.c == a { BehindBlock(v, c); }
  }

  /** Behind a block in use, `prev_size` means nothing: the word is the user's. */
  lemma BehindBlock(v: View, c: int)
    requires Core(v) && c in v.ch && v.ch[c].st.Live?
    ensures Next(v.ch, c) in v.ch && FrontUsed(v.ch, v.sz, Next(v.ch, c))
  {
    NextFacts(v, c);
  }

  /** No two places overlap. */
  lemma NoOverlap(v: View, s: Slot, t: Slot)
    requires Core(v) && Meaningful(v, s) && Meaningful(v, t) && Address(s) == Address(t)
    ensures s == t
  {
    hide Core;
    if s.Stored? && !t.Stored? {
      WordsApart(v, s.a, t);
    } else if t.Stored? && !s.Stored? {
      WordsApart(v, t.a, s);
    } else if !s.Stored? {
      FieldsApart(v, s, t);
    }
  }

  /** All addresses that may hold something. */
  ghost function Addresses(v: View): set<int> {
    (set c | c in v.ch :: c) + (set c | c in v.ch :: c + 8) + (set c | c in v.ch :: c + 16) + (set c | c in v.ch ::
      c + 24)
    + v.stored.Keys
  }

  ghost predicate At(v: View, s: Slot, a: int) {
    Meaningful(v, s) && Address(s) == a
  }

  /** What lies at the address. */
  ghost function Holder(v: View, a: int): (s: Slot)
    requires exists s :: At(v, s, a)
    ensures At(v, s, a)
  {
    var s :| At(v, s, a); s
  }

  /** The single memory. */
  ghost function Flat(v: View): Words {
    map a | a in Addresses(v) && exists s :: At(v, s, a) :: Content(v, Holder(v, a))
  }

  /** In the single memory, every meaningful field and every word of a user has its value at its address. */
  lemma OneMemory(v: View, s: Slot)
    requires Core(v) && Meaningful(v, s)
    ensures Address(s) in Flat(v) && Flat(v)[Address(s)] == Content(v, s)
  {
    hide Core;
    var a := Address(s);
    assert At(v, s, a);
    assert a in Addresses(v);
    NoOverlap(v, s, Holder(v, a));
  }

  // ------------------------------------------------------------ a user's write

  /** A write to the word a leaves every other place alone. */
  lemma OtherSlot(v: View, c: int, a: int, x: int, t: Slot)
    requires Core(v) && c in v.ch && v.ch[c].st.Live? && Inside(v.ch, c, a) && t != Stored(a)
    ensures var w := Poked(v, c, a, x);
            Core(w) && (Meaningful(w, t) <==> Meaningful(v, t)) && (Meaningful(v, t) ==> Content(w, t) == Content(v, t))
  {
    hide Core, Inside;
    PokedCore(v, c, a, x);
    var w := Poked(v, c, a, x);
    if !t.Stored? && t.c in w.ch {
      WordsApart(w, a, Size(t.c));
      if Meaningful(w, t) { WordsApart(w, a, t); }
    }
  }

  /** In the single memory, a user's write changes one word. */
  lemma OneWordWritten(v: View, c: int, a: int, x: int)
    requires Core(v) && c in v.ch && v.ch[c].st.Live? && Inside(v.ch, c, a)
    ensures Flat(Poked(v, c, a, x)) == Flat(v)[a := x]
  {
    var w := Poked(v, c, a, x);
    PokedCore(v, c, a, x);
    OneMemory(w, Stored(a));
    hide Core, Inside, Addresses, Poked;
    forall b | b in Flat(w) && b != a ensures b in Flat(v) && Flat(v)[b] == Flat(w)[b] {
      var s := Holder(w, b);
      OtherSlot(v, c, a, x, s);
      OneMemory(v, s);
    }
    forall b | b in Flat(v) && b != a ensures b in Flat(w) {
      var s := Holder(v, b);
      OtherSlot(v, c, a, x, s);
      OneMemory(w, s);
    }
  }

  // ------------------------------------------------------------ the steps of the allocator

  /** The memory holds every meaningful field and every word of a user at its address. */
  ghost predicate Shows(mem: Words, v: View) {
    forall s {:trigger Meaningful(v, s)} :: Meaningful(v, s) ==> Rd(mem, Address(s)) == Content(v, s)
  }

  lemma FlatShows(v: View)
    requires Core(v)
    ensures Shows(Flat(v), v)
  {
    hide Core, Flat;
    forall s {:trigger Meaningful(v, s)} | Meaningful(v, s) ensures Rd(Flat(v), Address(s)) == Content(v, s) {
      OneMemory(v, s);
    }
  }

  /** The memory after the fields have been written, each at its address. */
  ghost function Write(mem: Words, w: View, slots: seq<Slot>): Words
    requires forall k :: 0 <= k < |slots| ==> Meaningful(w, slots[k])
  {
    if slots == [] then mem
    else
      var n := |slots| - 1;
      Write(mem, w, slots[..n])[Address(slots[n]) := Content(w, slots[n])]
  }

  lemma {:induction false} WriteAt(mem: Words, w: View, slots: seq<Slot>, s: Slot)
    requires Core(w) && Meaningful(w, s) && forall k :: 0 <= k < |slots| ==> Meaningful(w, slots[k])
    ensures Rd(Write(mem, w, slots), Address(s)) == if s in slots then Content(w, s) else Rd(mem, Address(s))
  {
    hide Core, Meaningful, Content;
    if slots != [] {
      var n := |slots| - 1;
      WriteAt(mem, w, slots[..n], s);
      assert slots == slots[..n] + [slots[n]];
      if Address(slots[n]) == Address(s) { NoOverlap(w, s, slots[n]); }
    }
  }

  /** From v to w, nothing else changes but these fields. */
  ghost predicate Only(v: View, w: View, slots: seq<Slot>) {
    && (forall k :: 0 <= k < |slots| ==> Meaningful(w, slots[k]))
    && (forall s {:trigger Meaningful(w, s)} ::
        Meaningful(w, s) && s !in slots ==> Meaningful(v, s) && Content(v, s) == Content(w, s))
  }

  /** A step that writes these fields to the four maps may as well write them to the single memory. */
  lemma WriteThrough(mem: Words, v: View, w: View, slots: seq<Slot>)
    requires Core(w) && Shows(mem, v) && Only(v, w, slots)
    ensures Shows(Write(mem, w, slots), w)
  {
    hide Core, Write;
    forall s {:trigger Meaningful(w, s)} | Meaningful(w, s) ensures Rd(Write(mem, w, slots), Address(s)) ==
        Content(w, s) {
      WriteAt(mem, w, slots, s);
    }
  }

  /** The links of two chunks; bin headers are no part of the memory of chunks. */
  function Links(ch: Chunks, p: int, n: int): seq<Slot> {
    (if p in ch then [Forward(p)] else []) + (if n in ch then [Backward(n)] else [])
  }

  lemma NodeBinned(v: View, i: int, j: int)
    requires Core(v) && 1 <= i < NBINS == |v.bins|
    ensures var x := Node(Bin(i), v.bins[i], j); x in v.ch ==> v.ch[x].st == Binned(i)
    ensures var x := Node(Bin(i), v.bins[i], j); x !in v.ch ==> x == Bin(i)
  {
    hide Sound, Sorted, Rings, FastShelved, Chains, StoredOK;
    var x := Node(Bin(i), v.bins[i], j);
    assert BinHolds(v.ch, v.bins, i);
    if 0 <= j < |v.bins[i]| { assert x in v.bins[i]; } else { assert Bin(i) < 0; }
  }

  lemma UnlinkedOnly(v: View, i: int, k: int)
    requires Core(v) && InBin(v, i, k)
    ensures Only(v, Unlinked(v, i, k), Links(v.ch, Node(Bin(i), v.bins[i], k - 1), Node(Bin(i), v.bins[i], k + 1)))
  {
    hide Core, Node;
    NodeBinned(v, i, k - 1);
    NodeBinned(v, i, k + 1);
    Neighbours(v, i, k);
  }

  /** The neighbours of an element are others. */
  lemma Neighbours(v: View, i: int, k: int)
    requires Core(v) && InBin(v, i, k)
    ensures Node(Bin(i), v.bins[i], k - 1) != v.bins[i][k] && Node(Bin(i), v.bins[i], k + 1) != v.bins[i][k]
  {
    hide Sound, Sorted, Rings, FastShelved, Chains, StoredOK;
    assert BinHolds(v.ch, v.bins, i);
    assert v.bins[i][k] in v.bins[i] && Bin(i) < 0;
  }

  lemma UnlinkedThrough(mem: Words, v: View, i: int, k: int)
    requires Core(v) && InBin(v, i, k) && Shows(mem, v)
    ensures var w, slots := Unlinked(v, i, k), Links(v.ch, Node(Bin(i), v.bins[i], k - 1),
            Node(Bin(i), v.bins[i], k + 1));
            Only(v, w, slots) && Shows(Write(mem, w, slots), w)
  {
    hide Core, Unlinked, Links, Only, Shows;
    UnlinkedCore(v, i, k);
    UnlinkedOnly(v, i, k);
    var slots := Links(v.ch, Node(Bin(i), v.bins[i], k - 1), Node(Bin(i), v.bins[i], k + 1));
    WriteThrough(mem, v, Unlinked(v, i, k), slots);
  }

  /** The four links of an insertion. */
  function NewLinks(ch: Chunks, c: int, p: int, n: int): seq<Slot> {
    [Forward(c), Backward(c)] + Links(ch, p, n)
  }

  lemma InsertedOnly(v: View, i: int, k: int, c: int)
    requires Core(v) && 1 <= i < NBINS == |v.bins| && 0 <= k <= |v.bins[i]| && c in v.ch && v.ch[c].st.Loose?
    ensures Only(v, Inserted(v, i, k, c), NewLinks(v.ch, c, Node(Bin(i), v.bins[i], k - 1), Node(Bin(i), v.bins[i], k)))
  {
    hide Core, Node;
    NodeBinned(v, i, k - 1);
    NodeBinned(v, i, k);
  }

  lemma InsertedThrough(mem: Words, v: View, i: int, k: int, c: int)
    requires Core(v) && 1 <= i < NBINS == |v.bins| && 0 <= k <= |v.bins[i]| && c in v.ch && Shows(mem, v)
    requires v.ch[c].st.Loose? && Fits(v.ch, v.bins[i], i, k, v.ch[c].size)
    ensures var w, slots := Inserted(v, i, k, c), NewLinks(v.ch, c, Node(Bin(i), v.bins[i], k - 1),
            Node(Bin(i), v.bins[i], k));
            Only(v, w, slots) && Shows(Write(mem, w, slots), w)
  {
    hide Core, Inserted, NewLinks, Only, Shows, Fits;
    InsertedCore(v, i, k, c);
    InsertedOnly(v, i, k, c);
    var slots := NewLinks(v.ch, c, Node(Bin(i), v.bins[i], k - 1), Node(Bin(i), v.bins[i], k));
    WriteThrough(mem, v, Inserted(v, i, k, c), slots);
  }

  lemma WokenThrough(mem: Words, v: View, c: int, st: Status)
    requires Core(v) && c in v.ch && v.ch[c].st.Loose? && (st.Live? || st.Held?) && Shows(mem, v)
    ensures Next(v.ch, c) in v.ch
    ensures var w, slots := Woken(v, c, st), [Size(Next(v.ch, c))]; Only(v, w, slots) && Shows(Write(mem, w, slots), w)
  {
    hide Core, Shows;
    WokenCore(v, c, st);
    WriteThrough(mem, v, Woken(v, c, st), [Size(Next(v.ch, c))]);
  }

  lemma SleptThrough(mem: Words, v: View, c: int)
    requires Core(v) && c in v.ch && v.ch[c].st.Held? && FrontUsed(v.ch, v.sz, c) && Next(v.ch, c) in v.ch
             && Shows(mem, v)
    requires !Idle(v.ch[Next(v.ch, c)]) && !v.ch[Next(v.ch, c)].st.Top?
    ensures var w, slots := Slept(v, c), [Size(Next(v.ch, c)), PrevSize(Next(v.ch, c))];
            Only(v, w, slots) && Shows(Write(mem, w, slots), w)
  {
    hide Core, Shows;
    SleptCore(v, c);
    HeaderFacts(v, c);
    WriteThrough(mem, v, Slept(v, c), [Size(Next(v.ch, c)), PrevSize(Next(v.ch, c))]);
  }

  /** The footer behind a free chunk that ends at n. */
  function Foot(k: Chunk, n: int): seq<Slot> {
    if Idle(k) then [PrevSize(n)] else []
  }

  lemma MergedThrough(mem: Words, v: View, c: int, st: Status)
    requires Core(v) && c in v.ch && Next(v.ch, c) in v.ch && Shows(mem, v)
    requires Unlisted(v.ch[c]) && Unlisted(v.ch[Next(v.ch, c)]) && !st.Binned? && !st.Fast?
    requires SameClass(st, v.ch[Next(v.ch, c)].st) && (FrontUsed(v.ch, v.sz, c) || InUse(st)) && Mergeable(v, c, st)
    ensures var n := Next(v.ch, c); var w, slots := Merged(v, c, st), [Size(c)] + Foot(v.ch[n], Next(v.ch, n));
            Only(v, w, slots) && Shows(Write(mem, w, slots), w)
  {
    hide Core, Shows, Mergeable;
    MergedCore(v, c, st);
    var n := Next(v.ch, c);
    HeaderFacts(v, c);
    HeaderFacts(v, n);
    if Idle(v.ch[n]) { NextFacts(v, n); }
    WriteThrough(mem, v, Merged(v, c, st), [Size(c)] + Foot(v.ch[n], Next(v.ch, n)));
  }

  lemma CarvedOnly(v: View, c: int, k: int, st: Status, rest: Status)
    requires c in v.ch && c + k !in v.ch && Unlisted(v.ch[c]) && k > 0 && v.ch[c].size - k > 0
    requires (st.Live? || st.Held?) && !rest.Binned? && !rest.Fast?
    requires Rd(v.sz, c) == v.ch[c].size || Rd(v.sz, c) == v.ch[c].size + 1
    requires Idle(v.ch[c]) ==> Next(v.ch, c) in v.ch && !FrontUsed(v.ch, v.sz, Next(v.ch, c))
    ensures Only(v, Carved(v, c, k, st, rest), [Size(c), Size(c + k)] + Foot(v.ch[c], Next(v.ch, c)))
  {
    var w, slots := Carved(v, c, k, st, rest), [Size(c), Size(c + k)] + Foot(v.ch[c], Next(v.ch, c));
    assert Size(c) in slots && Size(c + k) in slots;
    assert Idle(v.ch[c]) ==> PrevSize(Next(v.ch, c)) in slots;
  }

  lemma CarvedThrough(mem: Words, v: View, c: int, k: int, st: Status, rest: Status)
    requires Core(v) && c in v.ch && Unlisted(v.ch[c]) && Shows(mem, v)
    requires k >= MINSIZE && Granule(k) && v.ch[c].size - k >= MINSIZE
    requires (st.Live? || st.Held?) && SameClass(rest, v.ch[c].st) && !rest.Binned? && !rest.Fast?
             && Carvable(v, c, k, st)
    ensures var w, slots := Carved(v, c, k, st, rest), [Size(c), Size(c + k)] + Foot(v.ch[c], Next(v.ch, c));
            Only(v, w, slots) && Shows(Write(mem, w, slots), w)
  {
    hide Core, Shows, Carvable, Granule, Only, Carved, Foot;
    CarvedCore(v, c, k, st, rest);
    HeaderFacts(v, c);
    if Idle(v.ch[c]) { NextFacts(v, c); }
    CarvedOnly(v, c, k, st, rest);
    WriteThrough(mem, v, Carved(v, c, k, st, rest), [Size(c), Size(c + k)] + Foot(v.ch[c], Next(v.ch, c)));
  }

  lemma FastPushedThrough(mem: Words, v: View, i: int, c: int)
    requires Core(v) && 0 <= i < NFASTBINS && c in v.ch && (v.ch[c].st.Live? || v.ch[c].st.Held?) && Shows(mem, v)
    requires FastIndex(v.ch[c].size) == i && Bare(v.stored, c)
    ensures |v.fast| == |v.heads| == NFASTBINS
    ensures var w, slots := FastPushed(v, i, c), [Forward(c)]; Only(v, w, slots) && Shows(Write(mem, w, slots), w)
  {
    hide Core, Shows, FastIndex, Bare;
    FastPushedCore(v, i, c);
    WriteThrough(mem, v, FastPushed(v, i, c), [Forward(c)]);
  }

  lemma FastPoppedThrough(mem: Words, v: View, i: int, st: Status)
    requires Core(v) && 0 <= i < NFASTBINS == |v.fast| == |v.heads| && v.fast[i] != [] && (st.Live? || st.Held?)
             && Shows(mem, v)
    ensures v.heads[i] in v.ch && Only(v, FastPopped(v, i, st), []) && Shows(mem, FastPopped(v, i, st))
  {
    hide Core, Shows, FastIndex;
    FastPoppedCore(v, i, st);
    WriteThrough(mem, v, FastPopped(v, i, st), []);
  }

  lemma TopResizedThrough(mem: Words, v: View, t: int, size: int)
    requires Core(v) && t in v.ch && v.ch[t].st.Top? && size >= MINSIZE && Word(size) && Shows(mem, v)
    ensures var w, slots := TopResized(v, t, size), [Size(t)]; Only(v, w, slots) && Shows(Write(mem, w, slots), w)
  {
    hide Core, Shows, Word;
    TopResizedCore(v, t, size);
    HeaderFacts(v, t);
    WriteThrough(mem, v, TopResized(v, t, size), [Size(t)]);
  }

  lemma BorrowedThrough(mem: Words, v: View, c: int, k: int, st: Status)
    requires Core(v) && c in v.ch && Next(v.ch, c) in v.ch && v.ch[Next(v.ch, c)].st.Top? && v.ch[c].st.Live?
             && st.Live? && Shows(mem, v)
    requires k >= v.ch[c].size && Granule(k) && v.ch[c].size + v.ch[Next(v.ch, c)].size - k >= MINSIZE
    ensures var w, slots := Borrowed(v, c, k, st), [Size(c), Size(c + k)];
            Only(v, w, slots) && Shows(Write(mem, w, slots), w)
  {
    hide Core, Shows, Granule;
    BorrowedCore(v, c, k, st);
    HeaderFacts(v, c);
    HeaderFacts(v, Next(v.ch, c));
    WriteThrough(mem, v, Borrowed(v, c, k, st), [Size(c), Size(c + k)]);
  }

  lemma MarkedThrough(mem: Words, v: View, c: int, st: Status)
    requires Core(v) && c in v.ch && SameClass(st, v.ch[c].st) && Shows(mem, v)
    requires !v.ch[c].st.Binned? && !v.ch[c].st.Fast? && !st.Binned? && !st.Fast?
    requires v.ch[c].st.Live? && !st.Live? ==> Bare(v.stored, c)
    ensures var w := v.(ch := Mark(v.ch, c, st)); Only(v, w, []) && Shows(mem, w)
  {
    hide Core, Shows;
    MarkedCore(v, c, st);
    WriteThrough(mem, v, v.(ch := Mark(v.ch, c, st)), []);
  }
}
