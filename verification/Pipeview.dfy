/** The reorder window of the pipeline viewer: instructions retire out of order, are collected until a
    threshold, sorted by sequence number, and printed from the front. */
module Pipeview {

  /** A retired instruction; `text` stands for the rest of what is printed about it. */
  datatype Inst = Inst(sn: int, fetch: int, retire: int, text: string)

  /** What to print: bounds of 0 do not apply. */
  datatype Bounds = Bounds(snStart: int, snStop: int, tickStart: int, tickStop: int, onlyCommitted: bool)

  predicate Wanted(b: Bounds, x: Inst) {
    && (b.snStart > 0 ==> x.sn >= b.snStart)
    && (b.snStop > 0 ==> x.sn <= b.snStop)
    && (b.tickStart > 0 ==> x.fetch >= b.tickStart)
    && (b.tickStop > 0 ==> x.fetch <= b.tickStop)
    && (b.onlyCommitted ==> x.retire != 0)
  }

  function Filter(b: Bounds, s: seq<Inst>): seq<Inst> {
    if s == [] then [] else Filter(b, s[..|s| - 1]) + if Wanted(b, s[|s| - 1]) then [s[|s| - 1]] else []
  }

  lemma FilterMore(b: Bounds, s: seq<Inst>, x: Inst)
    ensures Filter(b, s + [x]) == Filter(b, s) + if Wanted(b, x) then [x] else []
  {
    assert (s + [x])[..|s|] == s;
  }

  // ------------------------------------------------------------ stable sorting by sequence number

  ghost predicate InOrder(s: seq<Inst>) {
    forall j, k :: 0 <= j < k < |s| ==> s[j].sn <= s[k].sn
  }

  /** Behind everything that is not larger. */
  function Insert(s: seq<Inst>, x: Inst): seq<Inst> {
    if s == [] || s[|s| - 1].sn <= x.sn then s + [x] else Insert(s[..|s| - 1], x) + [s[|s| - 1]]
  }

  function Sort(s: seq<Inst>): seq<Inst> {
    if s == [] then [] else Insert(Sort(s[..|s| - 1]), s[|s| - 1])
  }

  /** The instructions with one sequence number, in their order. */
  function Same(s: seq<Inst>, sn: int): seq<Inst> {
    if s == [] then [] else Same(s[..|s| - 1], sn) + if s[|s| - 1].sn == sn then [s[|s| - 1]] else []
  }

  lemma {:induction false} InsertOrder(s: seq<Inst>, x: Inst)
    requires InOrder(s)
    ensures InOrder(Insert(s, x)) && |Insert(s, x)| == |s| + 1
    ensures forall y :: y in Insert(s, x) <==> y in s || y == x
  {
    if s != [] && s[|s| - 1].sn > x.sn {
      var front, last := s[..|s| - 1], s[|s| - 1];
      InsertOrder(front, x);
      var t := Insert(front, x);
      assert Insert(s, x) == t + [last] && s == front + [last];
      hide Insert;
      forall j | 0 <= j < |t| ensures t[j].sn <= last.sn { assert t[j] in t; }
    }
  }

  lemma {:induction false} InsertBag(s: seq<Inst>, x: Inst)
    ensures multiset(Insert(s, x)) == multiset(s) + multiset{x}
  {
    if s != [] && s[|s| - 1].sn > x.sn {
      var front, last := s[..|s| - 1], s[|s| - 1];
      InsertBag(front, x);
      assert s == front + [last];
    }
  }

  lemma SameMore(s: seq<Inst>, x: Inst, sn: int)
    ensures Same(s + [x], sn) == Same(s, sn) + if x.sn == sn then [x] else []
  {
    assert (s + [x])[..|s|] == s;
  }

  /** Insertion goes behind all equals: what is larger cannot stand between them. */
  lemma {:induction false} InsertSame(s: seq<Inst>, x: Inst, sn: int)
    ensures Same(Insert(s, x), sn) == Same(s, sn) + if x.sn == sn then [x] else []
  {
    if s == [] || s[|s| - 1].sn <= x.sn {
      SameMore(s, x, sn);
    } else {
      var front, last := s[..|s| - 1], s[|s| - 1];
      InsertSame(front, x, sn);
      SameMore(Insert(front, x), last, sn);
    }
  }

  lemma {:induction false} SortOrder(s: seq<Inst>)
    ensures InOrder(Sort(s)) && |Sort(s)| == |s|
  {
    if s != [] {
      SortOrder(s[..|s| - 1]);
      InsertOrder(Sort(s[..|s| - 1]), s[|s| - 1]);
    }
  }

  lemma {:induction false} SortBag(s: seq<Inst>)
    ensures multiset(Sort(s)) == multiset(s)
  {
    if s != [] {
      var n := |s| - 1;
      SortBag(s[..n]);
      InsertBag(Sort(s[..n]), s[n]);
      hide Insert;
      assert s == s[..n] + [s[n]];
    }
  }

  lemma {:induction false} SortSame(s: seq<Inst>, sn: int)
    ensures Same(Sort(s), sn) == Same(s, sn)
  {
    if s != [] {
      var n := |s| - 1;
      SortSame(s[..n], sn);
      InsertSame(Sort(s[..n]), s[n], sn);
    }
  }

  /** `sort` is a stable sort: the result is in order, a rearrangement, and keeps equals in their order. */
  lemma SortFacts(s: seq<Inst>, sn: int)
    ensures InOrder(Sort(s)) && |Sort(s)| == |s| && multiset(Sort(s)) == multiset(s) && Same(Sort(s), sn) == Same(s, sn)
  {
    SortOrder(s);
    SortBag(s);
    SortSame(s, sn);
  }

  lemma {:induction false} SortSorted(s: seq<Inst>)
    requires InOrder(s)
    ensures Sort(s) == s
  {
    if s != [] {
      var n := |s| - 1;
      SortSorted(s[..n]);
      assert s == s[..n] + [s[n]];
    }
  }

  lemma SortMore(s: seq<Inst>, x: Inst)
    ensures Sort(s + [x]) == Insert(Sort(s), x)
  {
    assert (s + [x])[..|s|] == s;
  }

  lemma {:induction false} InsertBehind(s: seq<Inst>, t: seq<Inst>, x: Inst)
    requires forall j :: 0 <= j < |s| ==> s[j].sn <= x.sn
    ensures Insert(s + t, x) == s + Insert(t, x)
  {
    if t == [] {
      assert s + t == s;
    } else {
      var n := |t| - 1;
      assert (s + t)[..|s + t| - 1] == s + t[..n] && (s + t)[|s + t| - 1] == t[n];
      InsertBehind(s, t[..n], x);
      if t[n].sn > x.sn {
        assert s + Insert(t[..n], x) + [t[n]] == s + (Insert(t[..n], x) + [t[n]]);
      }
    }
  }

  // ------------------------------------------------------------ disorder

  /** How many have a larger sequence number. */
  function Above(s: seq<Inst>, sn: int): nat {
    if s == [] then 0 else Above(s[..|s| - 1], sn) + if s[|s| - 1].sn > sn then 1 else 0
  }

  /** No instruction comes after more than m with larger numbers. */
  ghost predicate Near(trace: seq<Inst>, m: nat) {
    forall i {:trigger trace[i]} :: 0 <= i < |trace| ==> Above(trace[..i], trace[i].sn) <= m
  }

  lemma {:induction false} AboveInsert(s: seq<Inst>, x: Inst, sn: int)
    ensures Above(Insert(s, x), sn) == Above(s, sn) + if x.sn > sn then 1 else 0
  {
    if s == [] || s[|s| - 1].sn <= x.sn {
      assert (s + [x])[..|s|] == s;
    } else {
      var t := Insert(s[..|s| - 1], x);
      AboveInsert(s[..|s| - 1], x, sn);
      assert (t + [s[|s| - 1]])[..|t|] == t;
    }
  }

  lemma {:induction false} AboveSort(s: seq<Inst>, sn: int)
    ensures Above(Sort(s), sn) == Above(s, sn)
  {
    if s != [] {
      AboveSort(s[..|s| - 1], sn);
      AboveInsert(Sort(s[..|s| - 1]), s[|s| - 1], sn);
    }
  }

  lemma {:induction false} AboveTail(s: seq<Inst>, k: nat, sn: int)
    requires k < |s| && InOrder(s) && s[k].sn > sn
    ensures Above(s, sn) >= |s| - k
  {
    var n := |s| - 1;
    if k < n {
      AboveTail(s[..n], k, sn);
    }
  }

  // ------------------------------------------------------------ the window

  /** What has been printed or rejected, followed by the window in order, is the trace so far in order. */
  ghost predicate Faithful(popped: seq<Inst>, queue: seq<Inst>, seen: seq<Inst>) {
    popped + Sort(queue) == Sort(seen)
  }

  lemma {:induction false} AboveAppend(a: seq<Inst>, b: seq<Inst>, sn: int)
    ensures Above(a + b, sn) == Above(a, sn) + Above(b, sn)
  {
    if b == [] {
      assert a + b == a;
    } else {
      AboveAppend(a, b[..|b| - 1], sn);
      assert (a + b)[..|a + b| - 1] == a + b[..|b| - 1];
    }
  }

  lemma {:induction false} AboveAtMost(s: seq<Inst>, sn: int)
    ensures Above(s, sn) <= |s|
    ensures (forall j :: 0 <= j < |s| ==> s[j].sn <= sn) ==> Above(s, sn) == 0
  {
    if s != [] { AboveAtMost(s[..|s| - 1], sn); }
  }

  /** An instruction belongs behind everything already popped exactly if no more larger ones have been seen than
      the window holds. */
  lemma NotTooLate(popped: seq<Inst>, queue: seq<Inst>, seen: seq<Inst>, x: Inst)
    requires Faithful(popped, queue, seen)
    ensures Above(seen, x.sn) <= |queue| <==> forall j :: 0 <= j < |popped| ==> popped[j].sn <= x.sn
  {
    hide Sort;
    SortOrder(seen);
    SortOrder(queue);
    AboveSort(seen, x.sn);
    AboveAppend(popped, Sort(queue), x.sn);
    AboveAtMost(popped, x.sn);
    AboveAtMost(Sort(queue), x.sn);
    hide Above;
    forall j | 0 <= j < |popped| && popped[j].sn > x.sn ensures Above(seen, x.sn) > |queue| {
      assert Sort(seen)[j] == popped[j];
      AboveTail(Sort(seen), j, x.sn);
    }
  }

  lemma FaithfulMore(popped: seq<Inst>, queue: seq<Inst>, seen: seq<Inst>, x: Inst)
    requires Faithful(popped, queue, seen) && forall j :: 0 <= j < |popped| ==> popped[j].sn <= x.sn
    ensures Faithful(popped, queue + [x], seen + [x])
  {
    SortMore(queue, x);
    SortMore(seen, x);
    InsertBehind(popped, Sort(queue), x);
  }

  /** An instruction has been popped in front of a smaller one, which has been popped later or is still in the window.
      */
  ghost predicate Broken(popped: seq<Inst>, queue: seq<Inst>) {
    || (exists j, k :: 0 <= j < k < |popped| && popped[j].sn > popped[k].sn)
    || (exists j, k :: 0 <= j < |popped| && 0 <= k < |queue| && popped[j].sn > queue[k].sn)
  }

  lemma BrokenMore(popped: seq<Inst>, queue: seq<Inst>, x: Inst)
    requires Broken(popped, queue) || exists j :: 0 <= j < |popped| && popped[j].sn > x.sn
    ensures Broken(popped, queue + [x])
  {
    var q := queue + [x];
    assert q[|queue|] == x;
    if j, k :| 0 <= j < |popped| && 0 <= k < |queue| && popped[j].sn > queue[k].sn {
      assert q[k] == queue[k];
    }
  }

  /** What is broken stays broken, whatever is popped. */
  lemma BrokenPrint(popped: seq<Inst>, queue: seq<Inst>, k: nat)
    requires Broken(popped, queue) && k <= |Sort(queue)|
    ensures Broken(popped + Sort(queue)[..k], Sort(queue)[k..])
  {
    hide Sort;
    SortBag(queue);
    var s := Sort(queue);
    var p, q := popped + s[..k], s[k..];
    if a, b :| 0 <= a < b < |popped| && popped[a].sn > popped[b].sn {
      assert p[a] == popped[a] && p[b] == popped[b];
    } else {
      var a, b :| 0 <= a < |popped| && 0 <= b < |queue| && popped[a].sn > queue[b].sn;
      assert queue[b] in multiset(s) && p[a] == popped[a];
      var c :| 0 <= c < |s| && s[c] == queue[b];
      if c < k { assert p[|popped| + c] == s[c]; } else { assert q[c - k] == s[c]; }
    }
  }

  /** How many instructions the window holds after n have been queued. */
  function Held(n: nat, low: nat, high: nat): nat
    requires low < high
  {
    if n <= high then n else low + (n - high - 1) % (high + 1 - low)
  }

  lemma HeldNext(n: nat, low: nat, high: nat)
    requires low < high
    ensures Held(n, low, high) <= high
    ensures Held(n + 1, low, high) == if Held(n, low, high) == high then low else Held(n, low, high) + 1
  {
    if n == high {
      assert Held(n + 1, low, high) == low + 0 % (high + 1 - low);
    } else if n > high {
      ModNext(n - high - 1, high + 1 - low);
    }
  }

  lemma ModNext(a: nat, m: nat)
    requires m > 0
    ensures (a + 1) % m == if a % m == m - 1 then 0 else a % m + 1
  {
    var q, r := a / m, a % m;
    assert a == q * m + r;
    if r == m - 1 {
      assert a + 1 == (q + 1) * m;
      ModOf(q + 1, 0, m);
    } else {
      ModOf(q, r + 1, m);
    }
  }

  lemma ModOf(q: nat, r: nat, m: nat)
    requires r < m
    ensures (q * m + r) % m == r
  {
    var x := q * m + r;
    var d := x / m - q;
    assert x == (x / m) * m + x % m;
    assert d * m == r - x % m;
    assert d >= 1 ==> d * m >= m;
    assert d <= -1 ==> d * m + m <= 0;
  }

  /** No instruction comes after more with larger numbers than the window holds when it is queued. */
  ghost predicate InTime(trace: seq<Inst>, low: nat, high: nat)
    requires low < high
  {
    forall i {:trigger trace[i]} :: high < i < |trace| ==> Above(trace[..i], trace[i].sn) <= Held(i, low, high)
  }

  lemma InTimeMore(seen: seq<Inst>, x: Inst, low: nat, high: nat)
    requires low < high
    ensures InTime(seen + [x], low, high) <==>
              InTime(seen, low, high) && (|seen| > high ==> Above(seen, x.sn) <= Held(|seen|, low, high))
  {
    hide Held, Above;
    var t := seen + [x];
    assert t[..|seen|] == seen && t[|seen|] == x;
    assert forall i :: 0 <= i < |seen| ==> t[..i] == seen[..i] && t[i] == seen[i];
  }

  /** The documented condition: at most the lower threshold out of place. */
  lemma NearInTime(trace: seq<Inst>, low: nat, high: nat)
    requires low < high && Near(trace, low)
    ensures InTime(trace, low, high)
  {
    hide Above;
    forall i {:trigger trace[i]} | high < i < |trace| ensures Above(trace[..i], trace[i].sn) <= Held(i, low, high) {
      assert Above(trace[..i], trace[i].sn) <= low;
    }
  }

  lemma FaithfulPrint(popped: seq<Inst>, queue: seq<Inst>, seen: seq<Inst>, k: nat)
    requires k <= |Sort(queue)|
    ensures Faithful(popped, queue, seen) ==> Faithful(popped + Sort(queue)[..k], Sort(queue)[k..], seen)
  {
    hide Sort;
    var s := Sort(queue);
    SortOrder(queue);
    SortSorted(s[k..]);
    assert popped + s[..k] + s[k..] == popped + s;
  }

  /** Nothing is lost or duplicated. */
  ghost predicate Balanced(popped: seq<Inst>, queue: seq<Inst>, seen: seq<Inst>) {
    multiset(popped) + multiset(queue) == multiset(seen)
  }

  lemma BalancedMore(popped: seq<Inst>, queue: seq<Inst>, seen: seq<Inst>, x: Inst)
    requires Balanced(popped, queue, seen)
    ensures Balanced(popped, queue + [x], seen + [x])
  {
    assert multiset(queue + [x]) == multiset(queue) + multiset{x} && multiset(seen + [x]) ==
        multiset(seen) + multiset{x};
  }

  lemma BalancedPrint(popped: seq<Inst>, queue: seq<Inst>, seen: seq<Inst>, k: nat)
    requires Balanced(popped, queue, seen) && k <= |Sort(queue)|
    ensures Balanced(popped + Sort(queue)[..k], Sort(queue)[k..], seen)
  {
    hide Sort;
    var s := Sort(queue);
    SortBag(queue);
    assert s == s[..k] + s[k..];
  }

  class Window {
    var queue: seq<Inst>
    var printed: seq<Inst>
    const minThreshold: nat
    const maxThreshold: nat
    const bounds: Bounds
    ghost var popped: seq<Inst>
    ghost var seen: seq<Inst>

    /** Nothing is lost or duplicated, and exactly the wanted instructions of those popped are printed. */
    ghost predicate Valid()
      reads this
    {
      && minThreshold < maxThreshold
      && Balanced(popped, queue, seen)
      && printed == Filter(bounds, popped)
      && |queue| == Held(|seen|, minThreshold, maxThreshold) && (popped == [] <==> |seen| <= maxThreshold)
      && (if InTime(seen, minThreshold, maxThreshold) then Faithful(popped, queue, seen) else Broken(popped, queue))
    }

    constructor (low: nat, high: nat, b: Bounds)
      requires low < high
      ensures Valid() && seen == [] && minThreshold == low && maxThreshold == high && bounds == b
    {
      queue, printed, popped, seen := [], [], [], [];
      minThreshold, maxThreshold, bounds := low, high, b;
    }

    /** `print_insts`. */
    method PrintInsts(lower: nat)
      requires printed == Filter(bounds, popped)
      modifies this`queue, this`printed, this`popped
      ensures var s := Sort(old(queue)); var k := if |s| > lower then |s| - lower else 0;
              |s| == |old(queue)| && queue == s[k..] && popped == old(popped) + s[..k]
      ensures printed == Filter(bounds, popped)
    {
      hide Sort, Filter;
      SortOrder(queue);
      ghost var s := Sort(queue);
      ghost var k := 0;
      queue := Sort(queue);
      assert s[0..] == s && popped + s[..0] == popped;
      while |queue| > lower
        invariant 0 <= k <= |s| && queue == s[k..] && popped == old(popped) + s[..k]
        invariant |s| <= lower ==> k == 0
        invariant |s| > lower ==> |queue| >= lower
        invariant printed == Filter(bounds, popped)
      {
        var item := queue[0];
        queue := queue[1..];
        FilterMore(bounds, popped, item);
        assert old(popped) + s[..k + 1] == popped + [item];
        popped, k := popped + [item], k + 1;
        if bounds.snStart > 0 && item.sn < bounds.snStart { continue; }
        if bounds.snStop > 0 && item.sn > bounds.snStop { continue; }
        if bounds.tickStart > 0 && item.fetch < bounds.tickStart { continue; }
        if bounds.tickStop > 0 && item.fetch > bounds.tickStop { continue; }
        if bounds.onlyCommitted && item.retire == 0 { continue; }
        printed := printed + [item];
      }
    }

    /** `queue_inst`. */
    method QueueInst(x: Inst)
      requires Valid()
      modifies this
      ensures Valid() && seen == old(seen) + [x]
    {
      hide InTime, Faithful, Balanced, Sort, Filter, Above, Broken, Held;
      QueuedOrder(popped, queue, seen, x, minThreshold, maxThreshold);
      BalancedMore(popped, queue, seen, x);
      HeldNext(|seen|, minThreshold, maxThreshold);
      HeldLow(|seen|, minThreshold, maxThreshold);
      queue := queue + [x];
      seen := seen + [x];
      if |queue| > maxThreshold {
        SortOrder(queue);
        FaithfulPrint(popped, queue, seen, |queue| - minThreshold);
        BalancedPrint(popped, queue, seen, |queue| - minThreshold);
        if Broken(popped, queue) { BrokenPrint(popped, queue, |queue| - minThreshold); }
        PrintInsts(minThreshold);
      }
    }

    /** What is left in the window at the end of the trace. */
    method Flush()
      requires Valid()
      modifies this`queue, this`printed, this`popped
      ensures printed == Filter(bounds, popped) && multiset(popped) == multiset(seen)
      ensures if InTime(seen, minThreshold, maxThreshold) then Faithful(popped, [], seen) else Broken(popped, [])
    {
      hide InTime, Faithful, Balanced, Sort, Filter, Above, Broken, Held;
      ghost var s := Sort(queue);
      SortOrder(queue);
      BalancedPrint(popped, queue, seen, |s|);
      FaithfulPrint(popped, queue, seen, |s|);
      if Broken(popped, queue) { BrokenPrint(popped, queue, |s|); }
      PrintInsts(0);
      assert s[..|s|] == s && s[|s|..] == [];
      BalancedEnd(popped, seen);
    }
  }

  lemma BalancedEnd(popped: seq<Inst>, seen: seq<Inst>)
    requires Balanced(popped, [], seen)
    ensures multiset(popped) == multiset(seen)
  {
  }

  lemma HeldLow(n: nat, low: nat, high: nat)
    requires low < high
    ensures n < high ==> Held(n, low, high) == n
    ensures n == high ==> Held(n, low, high) == high
  {
  }

  /** One more instruction: the order is kept, or broken for good. */
  lemma QueuedOrder(popped: seq<Inst>, queue: seq<Inst>, seen: seq<Inst>, x: Inst, low: nat, high: nat)
    requires low < high && |queue| == Held(|seen|, low, high) && (popped == [] <==> |seen| <= high)
    requires if InTime(seen, low, high) then Faithful(popped, queue, seen) else Broken(popped, queue)
    ensures if InTime(seen + [x], low, high) then Faithful(popped, queue + [x], seen + [x])
            else Broken(popped, queue + [x])
  {
    hide InTime, Faithful, Above, Broken, Held;
    InTimeMore(seen, x, low, high);
    if InTime(seen, low, high) {
      NotTooLate(popped, queue, seen, x);
      if InTime(seen + [x], low, high) {
        FaithfulMore(popped, queue, seen, x);
      } else {
        BrokenMore(popped, queue, x);
      }
    } else {
      BrokenMore(popped, queue, x);
    }
  }

  lemma {:induction false} FilterBag(b: Bounds, s: seq<Inst>, x: Inst)
    ensures multiset(Filter(b, s))[x] == if Wanted(b, x) then multiset(s)[x] else 0
  {
    if s != [] {
      FilterBag(b, s[..|s| - 1], x);
      assert s == s[..|s| - 1] + [s[|s| - 1]];
    }
  }

  lemma {:induction false} FilterAll(b: Bounds, s: seq<Inst>)
    requires forall k :: 0 <= k < |s| ==> Wanted(b, s[k])
    ensures Filter(b, s) == s
  {
    hide Wanted;
    if s != [] {
      var n := |s| - 1;
      FilterAll(b, s[..n]);
      assert s == s[..n] + [s[n]];
      FilterMore(b, s[..n], s[n]);
    }
  }

  lemma BrokenOrder(popped: seq<Inst>)
    requires Broken(popped, [])
    ensures !InOrder(popped)
  {
  }

  /** What has been popped at the end: the trace in order exactly if all instructions came in time. */
  lemma EndOrder(popped: seq<Inst>, trace: seq<Inst>, low: nat, high: nat)
    requires low < high && (if InTime(trace, low, high) then Faithful(popped, [], trace) else Broken(popped, []))
    ensures InTime(trace, low, high) <==> popped == Sort(trace)
    ensures InTime(trace, low, high) <==> InOrder(popped)
  {
    SortOrder(trace);
    hide InTime;
    if InTime(trace, low, high) {
      assert Sort([]) == [] && popped + [] == popped;
    } else {
      BrokenOrder(popped);
    }
  }

  lemma AllWanted(b: Bounds, popped: seq<Inst>, trace: seq<Inst>)
    requires multiset(popped) == multiset(trace) && forall x :: x in trace ==> Wanted(b, x)
    ensures Filter(b, popped) == popped
  {
    forall k | 0 <= k < |popped| ensures Wanted(b, popped[k]) {
      assert popped[k] in multiset(trace);
    }
    FilterAll(b, popped);
  }

  /** A run to the end of the trace prints the wanted instructions, each as often as it retired.  If all instructions
      come in time, and so if none is more than the lower threshold out of place, it prints them in order; if all are
      wanted, it prints them in order only then. */
  method ProcessTrace(trace: seq<Inst>, low: nat, high: nat, b: Bounds) returns (printed: seq<Inst>)
    requires low < high
    ensures forall x :: multiset(printed)[x] == if Wanted(b, x) then multiset(trace)[x] else 0
    ensures forall x :: x in printed <==>
              && x in trace && (b.snStart <= 0 || b.snStart <= x.sn) && (b.snStop <= 0 || x.sn <= b.snStop)
              && (b.tickStart <= 0 || b.tickStart <= x.fetch) && (b.tickStop <= 0 || x.fetch <= b.tickStop)
              && (x.retire != 0 || !b.onlyCommitted)
    ensures InTime(trace, low, high) ==> printed == Filter(b, Sort(trace))
    ensures Near(trace, low) ==> printed == Filter(b, Sort(trace))
    ensures (forall x :: x in trace ==> Wanted(b, x)) ==> (InTime(trace, low, high) <==> InOrder(printed))
  {
    hide Sort, Filter, Near, Above, InTime, Faithful, Broken, InOrder, Held, Wanted, Balanced;
    var w := new Window(low, high, b);
    var i := 0;
    while i < |trace|
      invariant 0 <= i <= |trace| && fresh(w) && w.Valid() && w.seen == trace[..i]
      invariant w.minThreshold == low && w.maxThreshold == high && w.bounds == b
    {
      w.QueueInst(trace[i]);
      i := i + 1;
    }
    assert trace[..i] == trace;
    w.Flush();
    printed := w.printed;
    PrintedBag(b, w.popped, trace);
    WantedMeans(b, trace, printed);
    EndOrder(w.popped, trace, low, high);
    if Near(trace, low) { NearInTime(trace, low, high); }
    if forall x :: x in trace ==> Wanted(b, x) { AllWanted(b, w.popped, trace); }
  }

  lemma WantedMeans(b: Bounds, trace: seq<Inst>, printed: seq<Inst>)
    requires forall x :: multiset(printed)[x] == if Wanted(b, x) then multiset(trace)[x] else 0
    ensures forall x :: x in printed <==>
              && x in trace && (b.snStart <= 0 || b.snStart <= x.sn) && (b.snStop <= 0 || x.sn <= b.snStop)
              && (b.tickStart <= 0 || b.tickStart <= x.fetch) && (b.tickStop <= 0 || x.fetch <= b.tickStop)
              && (x.retire != 0 || !b.onlyCommitted)
  {
    forall x ensures x in printed <==> x in trace && Wanted(b, x) {
      assert x in printed <==> x in multiset(printed);
      assert x in trace <==> x in multiset(trace);
      assert multiset(printed)[x] == if Wanted(b, x) then multiset(trace)[x] else 0;
    }
  }

  lemma PrintedBag(b: Bounds, popped: seq<Inst>, trace: seq<Inst>)
    requires multiset(popped) == multiset(trace)
    ensures forall x :: multiset(Filter(b, popped))[x] == if Wanted(b, x) then multiset(trace)[x] else 0
  {
    hide Filter, Wanted;
    forall x ensures multiset(Filter(b, popped))[x] == if Wanted(b, x) then multiset(trace)[x] else 0 {
      FilterBag(b, popped, x);
    }
  }
}
