/** What the boundary tags are for: walking the heap by sizes visits every chunk, and every byte of the
    heap belongs to exactly one. */
module Tiling {
  import opened Layout
  import opened Shelves
  import opened HeapView

  /** From a chunk, size by size, up to the top chunk. */
  ghost function Walk(v: View, c: int): seq<int>
    requires Core(v) && c in v.ch
    decreases v.end - c
  {
    HeaderFacts(v, c);
    if v.ch[c].st.Top? then [c] else (NextFacts(v, c); [c] + Walk(v, Next(v.ch, c)))
  }

  ghost function Total(ch: Chunks, cs: seq<int>): int {
    if cs == [] then 0 else (if cs[0] in ch then ch[cs[0]].size else 0) + Total(ch, cs[1..])
  }

  /** A chunk lies behind another one entirely, and only top ends the heap. */
  lemma Behind(v: View, c: int, d: int)
    requires Core(v) && c in v.ch && d in v.ch && c <= d
    ensures d == c || Next(v.ch, c) <= d
    ensures v.ch[c].st.Top? <==> Next(v.ch, c) == v.end
  {
    hide Granule, Word, StoredOK, Shelved, Sorted, Rings, FastShelved, Chains;
    assert Apart(v.ch, c, d) && Placed(v.ch, v.base, v.end, c);
  }

  /** The walk ends at top, meets every chunk behind its start once, in address order, and nothing else;
      the sizes it meets add up to the bytes it passes. */
  lemma {:induction false} WalkAll(v: View, c: int)
    requires Core(v) && c in v.ch
    ensures forall d :: d in Walk(v, c) <==> d in v.ch && c <= d
    ensures forall j, k :: 0 <= j < k < |Walk(v, c)| ==> Walk(v, c)[j] < Walk(v, c)[k]
    ensures Total(v.ch, Walk(v, c)) == v.end - c
    decreases v.end - c
  {
    hide Core, Granule, Word, ChunkSize, PrevInuse;
    HeaderFacts(v, c);
    if v.ch[c].st.Top? {
      forall d | d in v.ch && c <= d ensures d == c { Behind(v, c, d); HeaderFacts(v, d); }
      Behind(v, c, c);
    } else {
      var n := Next(v.ch, c);
      NextFacts(v, c);
      WalkAll(v, n);
      forall d | d in v.ch && c <= d ensures d == c || n <= d { Behind(v, c, d); }
      assert Walk(v, c)[1..] == Walk(v, n);
      forall k | 0 < k < |Walk(v, c)| ensures c < Walk(v, c)[k] { assert Walk(v, n)[k - 1] in Walk(v, n); }
    }
  }

  /** Every byte of the heap belongs to exactly one chunk. */
  lemma {:induction false} OneOwner(v: View, c: int, a: int) returns (d: int)
    requires Core(v) && c in v.ch && c <= a < v.end
    ensures d in v.ch && d <= a < Next(v.ch, d)
    ensures forall e :: e in v.ch && e <= a < Next(v.ch, e) ==> e == d
    decreases v.end - c
  {
    hide Core, Granule, Word, ChunkSize, PrevInuse;
    HeaderFacts(v, c);
    Behind(v, c, c);
    if a < Next(v.ch, c) {
      d := c;
      forall e | e in v.ch && e <= a < Next(v.ch, e) ensures e == d {
        if e < d { Behind(v, e, d); } else { Behind(v, d, e); }
      }
    } else {
      NextFacts(v, c);
      d := OneOwner(v, Next(v.ch, c), a);
    }
  }
}
