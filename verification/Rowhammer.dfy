/** The row-refresh sampler: a 32-bit linear congruential generator and a threshold. */
module Rowhammer {
  import opened Powers

  const THRESHOLD: nat := 42949672
  const MAX_TIME: nat := 40000
  const ROW_SIZE: nat := 64 * 1024
  const WORD32: nat := 0x1_0000_0000
  const WORD64: nat := 0x1_0000_0000_0000_0000
  const A: nat := 1664525
  const C: nat := 1013904223

  /** `hash`, in 32-bit unsigned arithmetic. */
  function Hash(x: nat): nat {
    (x * A % WORD32 + C) % WORD32
  }

  function Iter(x: nat, n: nat): nat {
    if n == 0 then x else Hash(Iter(x, n - 1))
  }

  // ------------------------------------------------------------ divisibility by powers of two

  /** 2 to the k divides n. */
  predicate Div(k: nat, n: nat) {
    k == 0 || (n % 2 == 0 && Div(k - 1, n / 2))
  }

  lemma Pow2Positive(k: nat)
    ensures Pow2(k) > 0
  {
  }

  lemma {:induction false} DivMod(k: nat, n: nat)
    ensures Pow2(k) > 0 && (Div(k, n) <==> n % Pow2(k) == 0)
  {
    Pow2Positive(k);
    if k > 0 {
      DivMod(k - 1, n / 2);
      HalfMod(n, Pow2(k - 1));
    }
  }

  lemma HalfMod(n: nat, p: nat)
    requires p > 0
    ensures n % (2 * p) == 0 <==> n % 2 == 0 && n / 2 % p == 0
  {
    if n % (2 * p) == 0 {
      var q := n / (2 * p);
      assert n == 2 * p * q;
      assert n == 2 * (p * q);
      assert n / 2 == p * q;
      MultipleOf(p, q);
    }
    if n % 2 == 0 && n / 2 % p == 0 {
      var q := n / 2 / p;
      assert n / 2 == p * q;
      assert n == 2 * p * q;
      MultipleOf(2 * p, q);
    }
  }

  lemma MultipleOf(p: int, q: int)
    requires p > 0
    ensures p * q % p == 0
  {
    var d: int := q - p * q / p;
    assert p * d == p * q % p;
    assert d >= 1 ==> p * d >= p;
    assert d <= -1 ==> p * d <= -p;
  }

  lemma {:induction false} DivOdd(k: nat, n: nat, odd: nat)
    requires odd % 2 == 1
    ensures Div(k, n * odd) <==> Div(k, n)
  {
    if k > 0 {
      TimesOdd(n, odd);
      if n % 2 == 0 {
        DivOdd(k - 1, n / 2, odd);
      }
    }
  }

  lemma TimesOdd(n: nat, odd: nat)
    requires odd % 2 == 1
    ensures n * odd % 2 == n % 2 && (n % 2 == 0 ==> n * odd / 2 == n / 2 * odd)
  {
    var h := odd / 2;
    assert n * odd == 2 * (n * h) + n;
    if n % 2 == 0 {
      assert n * odd == 2 * (n / 2 * odd);
    }
  }

  lemma Div32(n: nat)
    ensures Div(32, n) <==> n % WORD32 == 0
  {
    DivMod(32, n);
    Pow2By8(0);
    Pow2By8(8);
    Pow2By8(16);
    Pow2By8(24);
  }

  lemma Pow2By8(k: nat)
    ensures Pow2(k + 8) == 256 * Pow2(k)
  {
    assert Pow2(k + 8) == 4 * Pow2(k + 6);
    assert Pow2(k + 6) == 4 * Pow2(k + 4);
    assert Pow2(k + 4) == 4 * Pow2(k + 2);
  }

  // ------------------------------------------------------------ the period

  function Power(n: nat): nat {
    if n == 0 then 1 else A * Power(n - 1)
  }

  /** 1 + A + ... + A^(n-1). */
  function Geometric(n: nat): nat {
    if n == 0 then 0 else A * Geometric(n - 1) + 1
  }

  lemma {:induction false} PowerSum(n: nat)
    ensures Power(n) == (A - 1) * Geometric(n) + 1
  {
    if n > 0 {
      PowerSum(n - 1);
    }
  }

  lemma {:induction false} PowerMod4(n: nat)
    ensures Power(n) % 4 == 1
  {
    if n > 0 {
      PowerMod4(n - 1);
      var q := Power(n - 1) / 4;
      assert Power(n) == 4 * (A * q + A / 4) + 1;
    }
  }

  lemma {:induction false} GeometricSum(m: nat, n: nat)
    ensures Geometric(m + n) == Geometric(m) * Power(n) + Geometric(n)
  {
    if m > 0 {
      GeometricSum(m - 1, n);
      PowerSum(n);
      SumStep(Geometric(m - 1), Power(n), Geometric(n));
    }
  }

  lemma SumStep(g: nat, p: nat, s: nat)
    requires p == (A - 1) * s + 1
    ensures A * (g * p + s) + 1 == (A * g + 1) * p + s
  {
    var gp := g * p;
    assert (A * g + 1) * p == A * gp + p;
  }

  lemma {:induction false} GeometricOdd(n: nat)
    ensures Geometric(n) % 2 == n % 2
  {
    if n > 0 {
      GeometricOdd(n - 1);
      var g := Geometric(n - 1);
      Parity(A / 2 * g, g, n);
    }
  }

  lemma Parity(h: nat, g: nat, n: nat)
    requires n > 0 && g % 2 == (n - 1) % 2
    ensures (2 * h + g + 1) % 2 == n % 2
  {
  }

  /** An even sum is twice the half sum times an odd factor. */
  lemma GeometricEven(m: nat) returns (odd: nat)
    ensures odd % 2 == 1 && Geometric(2 * m) == 2 * (Geometric(m) * odd)
  {
    hide Geometric, Power;
    GeometricSum(m, m);
    PowerMod4(m);
    odd := OddHalf(Power(m));
    Doubled(Geometric(m), Power(m), odd);
    assert m + m == 2 * m;
  }

  lemma OddHalf(p: nat) returns (odd: nat)
    requires p % 4 == 1
    ensures odd % 2 == 1 && p + 1 == 2 * odd
  {
    odd := 2 * (p / 4) + 1;
  }

  lemma Doubled(g: nat, p: nat, odd: nat)
    requires p + 1 == 2 * odd
    ensures g * p + g == 2 * (g * odd)
  {
    assert g * p + g == g * (p + 1);
  }

  /** Exactly the same powers of two divide n and the n-th geometric sum. */
  lemma {:induction false} DivGeometric(k: nat, n: nat)
    ensures Div(k, Geometric(n)) <==> Div(k, n)
  {
    if k > 0 {
      GeometricOdd(n);
      hide Geometric;
      if n % 2 == 0 {
        var m := n / 2;
        var odd := GeometricEven(m);
        DivOdd(k - 1, Geometric(m), odd);
        DivGeometric(k - 1, m);
        assert n == 2 * m && Geometric(n) / 2 == Geometric(m) * odd;
      }
    }
  }

  lemma ModPlus(y: int, z: int)
    ensures (y % WORD32 + z) % WORD32 == (y + z) % WORD32
  {
  }

  lemma ModTimes(y: nat)
    ensures Hash(y % WORD32) == (A * y + C) % WORD32
  {
    var q, r := y / WORD32, y % WORD32;
    assert A * y == WORD32 * (A * q) + A * r;
    ModPlus(A * r, C);
    AddMultiple(A * q, A * r + C);
  }

  lemma AddMultiple(q: int, z: int)
    ensures (WORD32 * q + z) % WORD32 == z % WORD32
  {
  }

  /** The n-th value is x + S(n) ((A - 1) x + C). */
  lemma {:induction false} IterClosed(x: nat, n: nat)
    requires x < WORD32
    ensures Iter(x, n) == (x + Geometric(n) * ((A - 1) * x + C)) % WORD32
  {
    if n == 0 {
      SmallMod(x);
    } else {
      var g, o := Geometric(n - 1), (A - 1) * x + C;
      assert Iter(x, n) == Hash(Iter(x, n - 1)) && Geometric(n) == A * g + 1;
      hide Iter, Geometric, Hash;
      IterClosed(x, n - 1);
      ModTimes(x + g * o);
      IterStep(x, g, o);
    }
  }

  lemma IterStep(x: nat, g: nat, o: nat)
    requires o == (A - 1) * x + C
    ensures A * (x + g * o) + C == x + (A * g + 1) * o
  {
    var go := g * o;
    assert (A * g + 1) * o == A * go + o;
  }

  lemma IterBound(x: nat, n: nat)
    requires x < WORD32
    ensures Iter(x, n) < WORD32
  {
  }

  /** A value comes back after n steps exactly if n is a multiple of 2^32. */
  lemma FullPeriod(x: nat, n: nat)
    requires x < WORD32
    ensures Iter(x, n) == x <==> n % WORD32 == 0
  {
    hide Iter, Geometric, Div;
    var g, o := Geometric(n), (A - 1) * x + C;
    IterClosed(x, n);
    OddFactor(x);
    DivOdd(32, g, o);
    DivGeometric(32, n);
    Div32(n);
    var y := g * o;
    Div32(y);
    SameMod(x, y);
  }

  lemma OddFactor(x: nat)
    ensures ((A - 1) * x + C) % 2 == 1
  {
    assert (A - 1) * x + C == 2 * (A / 2 * x + C / 2) + 1;
  }

  lemma SameMod(x: nat, y: nat)
    requires x < WORD32
    ensures (x + y) % WORD32 == x <==> y % WORD32 == 0
  {
    if (x + y) % WORD32 == x {
      assert y == WORD32 * ((x + y) / WORD32);
    }
  }

  lemma {:induction false} IterSplit(x: nat, m: nat, n: nat)
    ensures Iter(x, m + n) == Iter(Iter(x, m), n)
  {
    if n > 0 {
      IterSplit(x, m, n - 1);
    }
  }

  lemma SmallMod(n: nat)
    requires n < WORD32
    ensures n % WORD32 == n
  {
  }

  lemma Distinct(x: nat, i: nat, j: nat)
    requires x < WORD32 && i < j && j - i < WORD32
    ensures Iter(x, i) != Iter(x, j)
  {
    hide Iter;
    IterBound(x, i);
    IterSplit(x, i, j - i);
    FullPeriod(Iter(x, i), j - i);
    SmallMod(j - i);
  }

  // ------------------------------------------------------------ every value once

  /** The numbers below n. */
  function Range(n: nat): set<nat> {
    if n == 0 then {} else Range(n - 1) + {n - 1}
  }

  lemma {:induction false} RangeFacts(n: nat)
    ensures |Range(n)| == n && forall v: nat :: v in Range(n) <==> v < n
  {
    if n > 0 {
      RangeFacts(n - 1);
      assert Range(n) == Range(n - 1) + {n - 1} && n - 1 !in Range(n - 1);
      forall v: nat ensures v in Range(n) <==> v < n {
        assert v in Range(n) <==> v in Range(n - 1) || v == n - 1;
      }
    }
  }

  /** The values of steps 1 to n. */
  function Visited(x: nat, n: nat): set<nat> {
    if n == 0 then {} else Visited(x, n - 1) + {Iter(x, n)}
  }

  /** How many of steps 1 to n end below the threshold. */
  function Refreshes(x: nat, n: nat): nat {
    if n == 0 then 0 else Refreshes(x, n - 1) + if Iter(x, n) < THRESHOLD then 1 else 0
  }

  function Low(s: set<nat>): set<nat> {
    set v | v in s && v < THRESHOLD
  }

  lemma {:induction false} VisitedOnce(x: nat, n: nat, j: nat)
    requires x < WORD32 && n < j <= WORD32
    ensures Iter(x, j) !in Visited(x, n)
  {
    if n > 0 {
      VisitedOnce(x, n - 1, j);
      Distinct(x, n, j);
    }
  }

  lemma LowPlus(s: set<nat>, v: nat)
    requires v !in s
    ensures |Low(s + {v})| == |Low(s)| + if v < THRESHOLD then 1 else 0
  {
    assert Low(s + {v}) == if v < THRESHOLD then Low(s) + {v} else Low(s);
  }

  lemma {:induction false} VisitedSize(x: nat, n: nat)
    requires x < WORD32 && n <= WORD32
    ensures |Visited(x, n)| == n && (forall v :: v in Visited(x, n) ==> v < WORD32)
    ensures |Low(Visited(x, n))| == Refreshes(x, n)
  {
    if n > 0 {
      VisitedSize(x, n - 1);
      VisitedOnce(x, n - 1, n);
      IterBound(x, n);
      LowPlus(Visited(x, n - 1), Iter(x, n));
    }
  }

  lemma FullSubset(s: set<nat>, n: nat)
    requires |s| == n && (forall v :: v in s ==> v < n)
    ensures s == Range(n)
  {
    RangeFacts(n);
    var rest := Range(n) - s;
    assert Range(n) == s + rest;
  }

  /** From any value, 2^32 steps visit every 32-bit value exactly once, 42949672 of them below the threshold. */
  lemma OnePeriod(x: nat)
    requires x < WORD32
    ensures Visited(x, WORD32) == Range(WORD32) && |Visited(x, WORD32)| == WORD32
    ensures Refreshes(x, WORD32) == THRESHOLD
  {
    VisitedSize(x, WORD32);
    FullSubset(Visited(x, WORD32), WORD32);
    RangeFacts(WORD32);
    RangeFacts(THRESHOLD);
    hide Visited, Refreshes, Range;
    assert Low(Range(WORD32)) == Range(THRESHOLD);
  }

  lemma {:induction false} RefreshesSplit(x: nat, m: nat, n: nat)
    ensures Refreshes(x, m + n) == Refreshes(x, m) + Refreshes(Iter(x, m), n)
  {
    if n > 0 {
      RefreshesSplit(x, m, n - 1);
      IterSplit(x, m, n);
    }
  }

  /** Any 2^32 consecutive sampled accesses refresh exactly 42949672 times. */
  lemma AnyWindow(x: nat, m: nat)
    requires x < WORD32
    ensures Refreshes(x, m + WORD32) - Refreshes(x, m) == THRESHOLD
  {
    RefreshesSplit(x, m, WORD32);
    IterBound(x, m);
    OnePeriod(Iter(x, m));
  }

  // ------------------------------------------------------------ the sampling loop

  /** A step of the generator, in numbers. */
  lemma HashIs(x: nat)
    ensures Hash(x) == (1664525 * x + 1013904223) % 0x1_0000_0000 && Hash(1) == 1015568748
  {
    var low, q := x * A % WORD32, x * A / WORD32;
    assert x * A == WORD32 * q + low;
    assert (1664525 * x + 1013904223) % 0x1_0000_0000 == (WORD32 * q + (low + C)) % WORD32;
    ModShift(q, low + C);
  }

  lemma ModShift(q: nat, r: nat)
    ensures (WORD32 * q + r) % WORD32 == r % WORD32
  {
    var s := r / WORD32;
    assert WORD32 * q + r == WORD32 * (q + s) + r % WORD32;
  }

  datatype Access = Access(time: nat, address: nat)

  ghost predicate Increasing(s: seq<nat>) {
    forall j, k :: 0 <= j < k < |s| ==> s[j] < s[k]
  }

  /** The positions of the accesses that are not too early. */
  ghost predicate Late(accesses: seq<Access>, late: seq<nat>) {
    Increasing(late) && forall i {:trigger i in late} :: i in late <==> 0 <= i < |accesses| && accesses[i].time >= 40000
  }

  /** How many there are. */
  ghost function LateCount(accesses: seq<Access>): nat {
    |set i | 0 <= i < |accesses| && accesses[i].time >= 40000|
  }

  ghost function Elements(s: seq<nat>): set<nat> {
    set x | x in s
  }

  lemma {:induction false} IncreasingCount(s: seq<nat>)
    requires Increasing(s)
    ensures |Elements(s)| == |s|
  {
    if s == [] {
      assert Elements(s) == {};
    } else {
      var n := |s| - 1;
      var front := s[..n];
      IncreasingCount(front);
      assert s == front + [s[n]];
      OneElementMore(front, s[n]);
    }
  }

  lemma OneElementMore(s: seq<nat>, x: nat)
    requires x !in s
    ensures |Elements(s + [x])| == |Elements(s)| + 1
  {
    assert Elements(s + [x]) == Elements(s) + {x};
  }

  lemma LateCounted(accesses: seq<Access>, late: seq<nat>)
    requires Late(accesses, late)
    ensures |late| == LateCount(accesses)
  {
    IncreasingCount(late);
    assert Elements(late) == (set i | 0 <= i < |accesses| && accesses[i].time >= 40000);
  }

  /** Which of the first n steps of the generator from 1 fall below the threshold. */
  ghost predicate Hits(n: nat, hits: seq<nat>) {
    Increasing(hits) && forall j {:trigger j in hits} :: j in hits <==> 1 <= j <= n && Iter(1, j) < 42949672
  }

  /** Two addresses for every hit, one row behind and one row in front of that access, in 64-bit arithmetic. */
  ghost predicate RowsOf(accesses: seq<Access>, late: seq<nat>, hits: seq<nat>, prefetched: seq<nat>) {
    && |prefetched| == 2 * |hits|
    && (forall k {:trigger hits[k]} :: 0 <= k < |hits| ==>
          && 1 <= hits[k] <= |late| && late[hits[k] - 1] < |accesses|
          && prefetched[2 * k] == (accesses[late[hits[k] - 1]].address + 65536) % 0x1_0000_0000_0000_0000
          && prefetched[2 * k + 1] == (accesses[late[hits[k] - 1]].address - 65536) % 0x1_0000_0000_0000_0000)
  }

  lemma AppendLarger(s: seq<nat>, x: nat)
    requires Increasing(s) && forall y :: y in s ==> y < x
    ensures Increasing(s + [x])
  {
    forall j | 0 <= j < |s| ensures s[j] < x { assert s[j] in s; }
  }

  lemma LateMore(accesses: seq<Access>, late: seq<nat>, x: Access)
    requires Late(accesses, late)
    ensures Late(accesses + [x], if x.time >= 40000 then late + [|accesses|] else late)
  {
    var more := accesses + [x];
    assert forall i :: 0 <= i < |accesses| ==> more[i] == accesses[i];
    if x.time >= 40000 { AppendLarger(late, |accesses|); }
  }

  lemma HitsMore(n: nat, hits: seq<nat>)
    requires Hits(n, hits)
    ensures Hits(n + 1, if Iter(1, n + 1) < 42949672 then hits + [n + 1] else hits)
  {
    hide Iter;
    if Iter(1, n + 1) < 42949672 { AppendLarger(hits, n + 1); }
  }

  /** A longer list of accesses, late positions and prefetches does not disturb what is there. */
  lemma RowsMore(accesses: seq<Access>, late: seq<nat>, hits: seq<nat>, prefetched: seq<nat>, x: Access)
    requires RowsOf(accesses, late, hits, prefetched)
    ensures RowsOf(accesses + [x], late, hits, prefetched)
    ensures RowsOf(accesses + [x], late + [|accesses|], hits, prefetched)
    ensures RowsOf(accesses + [x], late + [|accesses|], hits + [|late| + 1],
              prefetched + [(x.address + 65536) % WORD64] + [(x.address - 65536) % WORD64])
  {
    var more, late', hits' := accesses + [x], late + [|accesses|], hits + [|late| + 1];
    var prefetched' := prefetched + [(x.address + 65536) % WORD64] + [(x.address - 65536) % WORD64];
    forall k {:trigger hits'[k]} | 0 <= k < |hits'|
      ensures 1 <= hits'[k] <= |late'| && late'[hits'[k] - 1] < |more|
      ensures prefetched'[2 * k] == (more[late'[hits'[k] - 1]].address + 65536) % WORD64
      ensures prefetched'[2 * k + 1] == (more[late'[hits'[k] - 1]].address - 65536) % WORD64
    {
      assert k < |hits| ==> hits'[k] == hits[k] && late'[hits[k] - 1] == late[hits[k] - 1];
    }
    forall k {:trigger hits[k]} | 0 <= k < |hits| ensures late'[hits[k] - 1] == late[hits[k] - 1] {
    }
  }

  lemma SomeElement(s: seq<nat>)
    ensures s != [] ==> exists j :: j in s
  {
    if s != [] { assert s[0] in s; }
  }

  /** As many hits as refreshes. */
  lemma {:induction false} HitsCount(n: nat, hits: seq<nat>)
    requires Hits(n, hits)
    ensures |hits| == Refreshes(1, n)
  {
    hide Iter;
    assert forall k :: 0 <= k < |hits| ==> hits[k] in hits;
    if n == 0 {
      SomeElement(hits);
    } else {
      var m := |hits| - 1;
      if Iter(1, n) < 42949672 {
        assert n in hits && hits[m] in hits;
        var k :| 0 <= k < |hits| && hits[k] == n;
        var front := hits[..m];
        forall j {:trigger j in front} ensures j in front <==> 1 <= j <= n - 1 && Iter(1, j) < 42949672 {
          assert j in front ==> j in hits && j < n;
          assert j in hits && j != n ==> j in front;
        }
        HitsCount(n - 1, front);
        assert |hits| == |front| + 1;
      } else {
        forall j {:trigger j in hits} ensures j in hits <==> 1 <= j <= n - 1 && Iter(1, j) < 42949672 {
        }
        HitsCount(n - 1, hits);
      }
    }
  }

  /** The sampling loop.  `late` are the positions of the sampled accesses, `hits` the numbers of those steps of
      the generator that fall below the threshold: those accesses are refreshed, and no others. */
  method Sample(accesses: seq<Access>)
      returns (prefetched: seq<nat>, rand: nat, ghost late: seq<nat>, ghost hits: seq<nat>)
    ensures rand == Iter(1, LateCount(accesses)) && |prefetched| == 2 * Refreshes(1, LateCount(accesses))
    ensures Late(accesses, late) && Hits(|late|, hits) && RowsOf(accesses, late, hits, prefetched)
  {
    hide Late, Hits, RowsOf, LateCount;
    rand := 1;
    prefetched, late, hits := [], [], [];
    assert Late([], []) && Hits(0, []) && RowsOf([], [], [], []) by { Nothing(); }
    var i := 0;
    while i < |accesses|
      invariant 0 <= i <= |accesses| && Late(accesses[..i], late) && rand == Iter(1, |late|)
      invariant Hits(|late|, hits) && RowsOf(accesses[..i], late, hits, prefetched)
    {
      var time, address := accesses[i].time, accesses[i].address;
      assert accesses[..i + 1] == accesses[..i] + [accesses[i]];
      LateMore(accesses[..i], late, accesses[i]);
      RowsMore(accesses[..i], late, hits, prefetched, accesses[i]);
      i := i + 1;
      if time < MAX_TIME {
        continue;
      }
      HitsMore(|late|, hits);
      late := late + [i - 1];
      rand := Hash(rand);
      if rand < THRESHOLD {
        hits := hits + [|late|];
        prefetched := prefetched + [(address + ROW_SIZE) % WORD64];
        prefetched := prefetched + [(address - ROW_SIZE) % WORD64];
      }
    }
    assert accesses[..i] == accesses;
    PrefetchCount(accesses, late, hits, prefetched);
    LateCounted(accesses, late);
  }

  lemma Nothing()
    ensures Late([], []) && Hits(0, []) && RowsOf([], [], [], [])
  {
  }

  /** Each refresh prefetches two rows. */
  lemma PrefetchCount(accesses: seq<Access>, late: seq<nat>, hits: seq<nat>, prefetched: seq<nat>)
    requires Hits(|late|, hits) && RowsOf(accesses, late, hits, prefetched)
    ensures |prefetched| == 2 * Refreshes(1, |late|)
  {
    HitsCount(|late|, hits);
  }
}
