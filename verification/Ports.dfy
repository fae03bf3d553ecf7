/** Binding the ports of a configuration: of every connection, listed in both directions, one direction is
    made, in an order that gives each port its peers at the configured indices. */
module Ports {
  import opened Wrappers

  /** A `PortConnection`: one end of a connection. */
  datatype End = End(obj: string, port: string, index: nat)

  type Connection = (End, End)

  function Key(e: End): (string, string) {
    (e.obj, e.port)
  }

  function Reversed(c: Connection): Connection {
    (c.1, c.0)
  }

  // ------------------------------------------------------------ the order of connections

  /** Strings by their first differing character. */
  predicate Before(a: string, b: string) {
    b != "" && (a == "" || a[0] < b[0] || (a[0] == b[0] && Before(a[1..], b[1..])))
  }

  predicate EndBefore(a: End, b: End) {
    Before(a.obj, b.obj) || (a.obj == b.obj && (Before(a.port, b.port) || (a.port == b.port && a.index < b.index)))
  }

  /** `sorted` compares the two ends in turn. */
  predicate AtMost(c: Connection, d: Connection) {
    EndBefore(c.0, d.0) || (c.0 == d.0 && (EndBefore(c.1, d.1) || c.1 == d.1))
  }

  lemma {:induction false} BeforeTotal(a: string, b: string)
    ensures a == b || Before(a, b) || Before(b, a)
  {
    if a != "" && b != "" && a[0] == b[0] {
      BeforeTotal(a[1..], b[1..]);
      assert a == [a[0]] + a[1..] && b == [b[0]] + b[1..];
    }
  }

  lemma AtMostTotal(c: Connection, d: Connection)
    ensures AtMost(c, d) || AtMost(d, c)
  {
    BeforeTotal(c.0.obj, d.0.obj);
    BeforeTotal(c.0.port, d.0.port);
    BeforeTotal(c.1.obj, d.1.obj);
    BeforeTotal(c.1.port, d.1.port);
    hide Before;
  }

  /** At position k the strings differ for the first time, and a comes first: it ends there, or its character is
      smaller. */
  predicate DiffersAt(a: string, b: string, k: nat) {
    k <= |a| && k < |b| && a[..k] == b[..k] && (k == |a| || a[k] < b[k])
  }

  lemma FirstSame(a: string, b: string, k: nat)
    requires k <= |a| && k <= |b| && a[..k] == b[..k]
    ensures k > 0 ==> a[0] == b[0]
  {
    assert k > 0 ==> a[..k][0] == b[..k][0];
  }

  lemma {:induction false} BeforeMeans(a: string, b: string)
    ensures Before(a, b) <==> exists k: nat :: DiffersAt(a, b, k)
  {
    if a == "" || b == "" || a[0] != b[0] {
      if Before(a, b) { assert DiffersAt(a, b, 0); }
      forall k: nat | DiffersAt(a, b, k) ensures k == 0 {
        FirstSame(a, b, k);
      }
    } else {
      BeforeMeans(a[1..], b[1..]);
      forall k: nat | DiffersAt(a[1..], b[1..], k) ensures DiffersAt(a, b, k + 1) {
        assert a[..k + 1] == [a[0]] + a[1..][..k] && b[..k + 1] == [b[0]] + b[1..][..k];
      }
      forall k: nat | DiffersAt(a, b, k) ensures k > 0 && DiffersAt(a[1..], b[1..], k - 1) {
        assert a[1..][..k - 1] == a[..k][1..] && b[1..][..k - 1] == b[..k][1..];
      }
    }
  }

  lemma {:induction false} NotBeforeItself(a: string)
    ensures !Before(a, a)
  {
    if a != "" { NotBeforeItself(a[1..]); }
  }

  /** The first ends decide, by the name of the object, then of the port, then by the index; only if they are the
      same do the second ends. */
  lemma EndsDecide(a: string, b: string, p: string, q: string, i: nat, j: nat, x: End, y: End)
    ensures Before(a, b) ==> AtMost((End(a, p, i), x), (End(b, q, j), y))
    ensures Before(p, q) ==> AtMost((End(a, p, i), x), (End(a, q, j), y))
    ensures i < j ==> AtMost((End(a, p, i), x), (End(a, p, j), y))
    ensures AtMost((End(a, p, i), x), (End(a, p, i), y)) <==> x == y || EndBefore(x, y)
  {
    NotBeforeItself(a);
    NotBeforeItself(p);
  }

  function Insert(s: seq<Connection>, c: Connection): seq<Connection> {
    if s == [] || AtMost(s[|s| - 1], c) then s + [c] else Insert(s[..|s| - 1], c) + [s[|s| - 1]]
  }

  function Sort(s: seq<Connection>): seq<Connection> {
    if s == [] then [] else Insert(Sort(s[..|s| - 1]), s[|s| - 1])
  }

  predicate InOrder(s: seq<Connection>) {
    forall i {:trigger s[i]} :: 0 < i < |s| ==> AtMost(s[i - 1], s[i])
  }

  lemma {:induction false} InsertOrder(s: seq<Connection>, c: Connection)
    requires InOrder(s)
    ensures InOrder(Insert(s, c))
    ensures s != [] ==> Insert(s, c)[|Insert(s, c)| - 1] == s[|s| - 1] || Insert(s, c)[|Insert(s, c)| - 1] == c
  {
    hide AtMost;
    if s != [] && !AtMost(s[|s| - 1], c) {
      AtMostTotal(s[|s| - 1], c);
      InsertOrder(s[..|s| - 1], c);
    }
  }

  lemma {:induction false} InsertBag(s: seq<Connection>, c: Connection)
    ensures multiset(Insert(s, c)) == multiset(s) + multiset{c}
  {
    hide AtMost;
    if s != [] && !AtMost(s[|s| - 1], c) {
      InsertBag(s[..|s| - 1], c);
      assert s == s[..|s| - 1] + [s[|s| - 1]];
    }
  }

  lemma {:induction false} SortOrder(s: seq<Connection>)
    ensures InOrder(Sort(s))
  {
    if s != [] {
      SortOrder(s[..|s| - 1]);
      InsertOrder(Sort(s[..|s| - 1]), s[|s| - 1]);
    }
  }

  lemma {:induction false} SortBag(s: seq<Connection>)
    ensures multiset(Sort(s)) == multiset(s)
  {
    hide Insert;
    if s != [] {
      var n := |s| - 1;
      SortBag(s[..n]);
      InsertBag(Sort(s[..n]), s[n]);
      assert s == s[..n] + [s[n]];
    }
  }

  lemma {:induction false} SortSorted(s: seq<Connection>)
    requires InOrder(s)
    ensures Sort(s) == s
  {
    if s != [] {
      var n := |s| - 1;
      SortSorted(s[..n]);
      assert s == s[..n] + [s[n]];
    }
  }

  // ------------------------------------------------------------ what a binding is

  /** Both directions of every connection are listed, each once, and no end is connected to itself. */
  ghost predicate Symmetric(s: seq<Connection>) {
    && (forall i, j :: 0 <= i < j < |s| ==> s[i] != s[j])
    && (forall c :: c in s ==> Reversed(c) in s && c.0 != c.1)
  }

  /** The indices at which the port k is attached, in order of binding. */
  function At(bound: seq<Connection>, k: (string, string)): seq<nat> {
    if bound == [] then []
    else
      var n := |bound| - 1;
      At(bound[..n], k)
      + (if Key(bound[n].0) == k then [bound[n].0.index] else [])
      + (if Key(bound[n].1) == k then [bound[n].1.index] else [])
  }

  function Upto(n: nat): seq<nat> {
    if n == 0 then [] else Upto(n - 1) + [n - 1]
  }

  lemma {:induction false} UptoSize(n: nat)
    ensures |Upto(n)| == n
  {
    if n > 0 {
      UptoSize(n - 1);
    }
  }

  /** The port of e was attached at 0, 1, 2 and so on, and at e's index. */
  predicate Attached(bound: seq<Connection>, e: End) {
    var at := At(bound, Key(e));
    at == Upto(|at|) && e.index < |at|
  }

  /** The counter of every port says how often it has been attached, at 0, 1, 2 and so on. */
  ghost predicate Counted(idx: map<(string, string), nat>, bound: seq<Connection>) {
    forall k :: k in idx ==> At(bound, k) == Upto(idx[k])
  }

  /** Ends that have been attached are below the counter of their port; no connection is bound in both directions. */
  ghost predicate Below(s: seq<Connection>, idx: map<(string, string), nat>, bound: seq<Connection>) {
    forall c :: c in bound ==> c in s && Used(idx, c.0) && Used(idx, c.1) && Reversed(c) !in bound
  }

  ghost predicate Distinct(bound: seq<Connection>) {
    forall i, j :: 0 <= i < j < |bound| ==> bound[i] != bound[j]
  }

  ghost predicate Bound(s: seq<Connection>, idx: map<(string, string), nat>, bound: seq<Connection>) {
    Counted(idx, bound) && Below(s, idx, bound) && Distinct(bound)
  }

  predicate Used(idx: map<(string, string), nat>, e: End) {
    Key(e) in idx && e.index < idx[Key(e)]
  }

  /** What is attached at a port after one more connection. */
  lemma AtMore(bound: seq<Connection>, c: Connection, k: (string, string))
    ensures At(bound + [c], k) == At(bound, k) + (if Key(c.0) == k then [c.0.index] else []) + (if Key(c.1) == k
            then [c.1.index] else [])
  {
    assert (bound + [c])[..|bound|] == bound;
  }

  /** The counters after binding c. */
  function Counters(idx: map<(string, string), nat>, c: Connection): map<(string, string), nat> {
    idx[Key(c.0) := c.0.index + 1][Key(c.1) := c.1.index + 1]
  }

  lemma BindCounted(idx: map<(string, string), nat>, bound: seq<Connection>, c: Connection)
    requires Counted(idx, bound) && Key(c.0) != Key(c.1)
    requires Key(c.0) in idx && Key(c.1) in idx && idx[Key(c.0)] == c.0.index && idx[Key(c.1)] == c.1.index
    ensures Counted(Counters(idx, c), bound + [c])
  {
    hide At, Key;
    var idx' := Counters(idx, c);
    forall k | k in idx' ensures At(bound + [c], k) == Upto(idx'[k]) {
      AtMore(bound, c, k);
    }
  }

  /** c and its reverse were not bound before, since its ends were not used. */
  lemma BindBelow(s: seq<Connection>, idx: map<(string, string), nat>, bound: seq<Connection>, c: Connection)
    requires Below(s, idx, bound) && Distinct(bound) && c in s && c.0 != c.1
    requires !Used(idx, c.0) && Used(Counters(idx, c), c.0) && Used(Counters(idx, c), c.1)
    requires forall e: End :: Used(idx, e) ==> Used(Counters(idx, c), e)
    ensures Below(s, Counters(idx, c), bound + [c]) && Distinct(bound + [c])
  {
    hide Used, Counters;
    var idx', longer := Counters(idx, c), bound + [c];
    assert c !in bound && Reversed(c) !in bound;
    forall d | d in longer ensures d in s && Used(idx', d.0) && Used(idx', d.1) && Reversed(d) !in longer {
      assert d in bound || d == c;
      assert Reversed(Reversed(d)) == d;
    }
  }

  lemma BindOne(s: seq<Connection>, idx: map<(string, string), nat>, bound: seq<Connection>, c: Connection)
    requires Bound(s, idx, bound) && c in s && c.0 != c.1
    requires Key(c.0) in idx && Key(c.1) in idx && idx[Key(c.0)] == c.0.index && idx[Key(c.1)] == c.1.index
    ensures Key(c.0) != Key(c.1) && Bound(s, Counters(idx, c), bound + [c])
  {
    hide Counted, Below, Distinct;
    BindCounted(idx, bound, c);
    BindBelow(s, idx, bound, c);
  }

  /** Listed connections, none twice and none in both directions. */
  ghost predicate OneWay(s: seq<Connection>, bound: seq<Connection>) {
    && (forall c :: c in bound ==> c in s && Reversed(c) !in bound)
    && (forall i, j :: 0 <= i < j < |bound| ==> bound[i] != bound[j])
  }

  function Backward(s: seq<Connection>): set<Connection> {
    set d | d in s :: Reversed(d)
  }

  lemma Sides(s: seq<Connection>, bound: seq<Connection>)
    requires Symmetric(s) && OneWay(s, bound)
    ensures Members(bound) !! Backward(bound) && Members(bound) + Backward(bound) <= Members(s)
  {
  }

  /** If twice as many connections are listed as were bound, one direction of each was bound. */
  lemma HalfIsAll(s: seq<Connection>, bound: seq<Connection>)
    requires Symmetric(s) && OneWay(s, bound) && 2 * |bound| == |s|
    ensures forall c :: c in s ==> (c in bound <==> Reversed(c) !in bound)
  {
    Sides(s, bound);
    MembersSize(s);
    MembersSize(bound);
    BackwardSize(bound);
    var both := Members(bound) + Backward(bound);
    FullSubset(both, Members(s));
    forall c | c in s ensures c in bound <==> Reversed(c) !in bound {
      assert c in both;
      assert c in Backward(bound) ==> Reversed(c) in bound;
    }
  }

  function Members(s: seq<Connection>): set<Connection> {
    set c | c in s
  }

  lemma {:induction false} MembersSize(s: seq<Connection>)
    requires forall i, j :: 0 <= i < j < |s| ==> s[i] != s[j]
    ensures |Members(s)| == |s|
  {
    if s != [] {
      var n := |s| - 1;
      MembersSize(s[..n]);
      assert Members(s) == Members(s[..n]) + {s[n]};
    }
  }

  lemma {:induction false} BackwardSize(s: seq<Connection>)
    requires forall i, j :: 0 <= i < j < |s| ==> s[i] != s[j]
    ensures |Backward(s)| == |s|
  {
    if s != [] {
      var n := |s| - 1;
      BackwardSize(s[..n]);
      assert Backward(s) == Backward(s[..n]) + {Reversed(s[n])};
      assert Reversed(s[n]) !in Backward(s[..n]);
    }
  }

  lemma FullSubset(a: set<Connection>, b: set<Connection>)
    requires a <= b && |a| == |b|
    ensures a == b
  {
    assert b == a + (b - a);
  }

  // ------------------------------------------------------------ binding

  /** The counters start at 0. */
  method ZeroIndices(s: seq<Connection>) returns (idx: map<(string, string), nat>)
    ensures forall c :: c in s ==> Key(c.0) in idx
    ensures forall k :: k in idx ==> idx[k] == 0
  {
    idx := map[];
    for i := 0 to |s|
      invariant forall c :: c in s[..i] ==> Key(c.0) in idx
      invariant forall k :: k in idx ==> idx[k] == 0
    {
      idx := idx[Key(s[i].0) := 0];
    }
    assert s[..|s|] == s;
  }

  /** One connection of the pass: it is made if both its ends are the next ones of their ports. */
  datatype Pass = Pass(idx: map<(string, string), nat>, bound: seq<Connection>)

  function Tried(p: Pass, c: Connection): Pass {
    if Key(c.0) in p.idx && Key(c.1) in p.idx && p.idx[Key(c.0)] == c.0.index && p.idx[Key(c.1)] == c.1.index then
      var idx := p.idx[Key(c.0) := p.idx[Key(c.0)] + 1];
      Pass(idx[Key(c.1) := idx[Key(c.1)] + 1], p.bound + [c])
    else p
  }

  function Passed(p: Pass, s: seq<Connection>, n: nat): Pass
    requires n <= |s|
  {
    if n == 0 then p else Tried(Passed(p, s, n - 1), s[n - 1])
  }

  /** The counters at the start. */
  ghost predicate Fresh(s: seq<Connection>, idx: map<(string, string), nat>) {
    (forall c :: c in s ==> Key(c.0) in idx) && (forall k :: k in idx ==> idx[k] == 0)
  }

  // ------------------------------------------------------------ when one pass is enough

  /** The connections of s that are in `chosen`, in the order of s. */
  function Picked(s: seq<Connection>, chosen: set<Connection>): seq<Connection> {
    if s == [] then []
    else
      var n := |s| - 1;
      Picked(s[..n], chosen) + if s[n] in chosen then [s[n]] else []
  }

  /** Each port of the connections is attached at 0, 1, 2 and so on. */
  ghost predicate Consecutive(half: seq<Connection>) {
    forall k {:trigger At(half, k)} :: At(half, k) == Upto(|At(half, k)|)
  }

  /** One direction of every connection is chosen, none joins a port to itself, and in sorted order the
      chosen ones use the indices of each port one after the other. */
  ghost predicate Bindable(s: seq<Connection>, chosen: set<Connection>) {
    && chosen <= Members(s) && (forall c :: c in s ==> (c in chosen <==> Reversed(c) !in chosen))
    && (forall c :: c in chosen ==> Key(c.0) != Key(c.1))
    && Consecutive(Picked(Sort(s), chosen))
  }

  predicate Has(c: Connection, e: End) {
    c.0 == e || c.1 == e
  }

  lemma {:induction false} AtMember(bound: seq<Connection>, k: (string, string), i: nat)
    requires i in At(bound, k)
    ensures exists c :: c in bound && Has(c, End(k.0, k.1, i))
  {
    var n := |bound| - 1;
    if i in At(bound[..n], k) {
      AtMember(bound[..n], k, i);
      var c :| c in bound[..n] && Has(c, End(k.0, k.1, i));
      assert c in bound;
    } else {
      assert bound[n] in bound && Has(bound[n], End(k.0, k.1, i));
    }
  }

  lemma {:induction false} UptoAt(n: nat, i: nat)
    ensures i in Upto(n) <==> i < n
    ensures |Upto(n)| == n && (i < n ==> Upto(n)[i] == i)
  {
    if n > 0 {
      UptoAt(n - 1, i);
    }
  }

  /** What is attached by the first t connections comes first. */
  lemma {:induction false} AtPrefix(half: seq<Connection>, t: nat, k: (string, string))
    requires t <= |half|
    ensures At(half[..t], k) <= At(half, k)
    decreases |half|
  {
    if t == |half| {
      assert half[..t] == half;
    } else {
      var n := |half| - 1;
      AtPrefix(half[..n], t, k);
      assert half[..n][..t] == half[..t];
    }
  }

  lemma PrefixUpto(a: seq<nat>, n: nat)
    requires a <= Upto(n)
    ensures a == Upto(|a|)
  {
    hide Upto;
    UptoAt(n, 0);
    UptoAt(|a|, 0);
    forall i | 0 <= i < |a| ensures a[i] == Upto(|a|)[i] {
      UptoAt(n, i);
      UptoAt(|a|, i);
    }
  }

  /** How often the first t connections attach the port k. */
  function Count(half: seq<Connection>, t: nat, k: (string, string)): nat
    requires t <= |half|
  {
    |At(half[..t], k)|
  }

  lemma CountGrows(half: seq<Connection>, t: nat, u: nat, k: (string, string))
    requires t <= u <= |half|
    ensures Count(half, t, k) <= Count(half, u, k)
  {
    AtPrefix(half[..u], t, k);
    assert half[..u][..t] == half[..t];
  }

  /** The indices of connection t are the next ones of its ports. */
  lemma IndicesNext(half: seq<Connection>, t: nat)
    requires Consecutive(half) && t < |half| && Key(half[t].0) != Key(half[t].1)
    ensures half[t].0.index == Count(half, t, Key(half[t].0)) && half[t].1.index == Count(half, t, Key(half[t].1))
    ensures Count(half, t + 1, Key(half[t].0)) == half[t].0.index + 1 && Count(half, t + 1, Key(half[t].1)) ==
            half[t].1.index + 1
  {
    hide At, Key, Upto;
    NextIndex(half, t, Key(half[t].0));
    NextIndex(half, t, Key(half[t].1));
  }

  lemma NextIndex(half: seq<Connection>, t: nat, k: (string, string))
    requires Consecutive(half) && t < |half| && Key(half[t].0) != Key(half[t].1)
             && (k == Key(half[t].0) || k == Key(half[t].1))
    ensures Count(half, t + 1, k) == Count(half, t, k) + 1
    ensures Count(half, t, k) == if k == Key(half[t].0) then half[t].0.index else half[t].1.index
  {
    hide At, Key, Upto;
    assert half[..t + 1] == half[..t] + [half[t]];
    AtMore(half[..t], half[t], k);
    AtPrefix(half, t + 1, k);
    PrefixUpto(At(half[..t + 1], k), |At(half, k)|);
    UptoAt(Count(half, t + 1, k), Count(half, t, k));
  }

  /** An end occurs in one connection only. */
  lemma EndOnce(half: seq<Connection>, t: nat, u: nat, e: End)
    requires Consecutive(half) && t < |half| && u < |half| && Has(half[t], e) && Has(half[u], e)
    requires Key(half[t].0) != Key(half[t].1) && Key(half[u].0) != Key(half[u].1)
    ensures t == u
  {
    hide Consecutive, Count;
    IndicesNext(half, t);
    IndicesNext(half, u);
    if t < u { CountGrows(half, t + 1, u, Key(e)); }
    if u < t { CountGrows(half, u + 1, t, Key(e)); }
  }

  /** Bound in one direction. */
  predicate Linked(bound: seq<Connection>, c: Connection) {
    c in bound || Reversed(c) in bound
  }

  /** Earlier connections use all smaller indices of the port of e. */
  lemma EarlierUsed(s: seq<Connection>, idx: map<(string, string), nat>, bound: seq<Connection>,
      half: seq<Connection>, t: nat, e: End)
    requires Bound(s, idx, bound) && Consecutive(half) && t < |half| && Key(half[t].0) != Key(half[t].1)
             && Has(half[t], e)
    requires forall u :: 0 <= u < t ==> Linked(bound, half[u])
    requires Key(e) in idx
    ensures e.index <= idx[Key(e)]
  {
    hide At, Upto, Key, Consecutive, Bound, Count;
    IndicesNext(half, t);
    if e.index > 0 {
      PriorEnd(half, t, e);
      var u :| 0 <= u < t && Has(half[u], e.(index := e.index - 1));
      LinkedUsed(s, idx, bound, half[u], e.(index := e.index - 1));
      SameKey(e);
    }
  }

  lemma SameKey(e: End)
    requires e.index > 0
    ensures Key(e.(index := e.index - 1)) == Key(e)
  {
  }

  lemma PriorEnd(half: seq<Connection>, t: nat, e: End)
    requires Consecutive(half) && t < |half| && e.index == Count(half, t, Key(e)) && e.index > 0
    ensures exists u :: 0 <= u < t && Has(half[u], e.(index := e.index - 1))
  {
    hide At, Upto;
    var k, i := Key(e), e.index - 1;
    AtPrefix(half, t, k);
    PrefixUpto(At(half[..t], k), |At(half, k)|);
    UptoAt(e.index, i);
    AtMember(half[..t], k, i);
    var c :| c in half[..t] && Has(c, End(k.0, k.1, i));
    var u :| 0 <= u < t && half[u] == c;
    assert Has(half[u], e.(index := e.index - 1));
  }

  lemma LinkedUsed(s: seq<Connection>, idx: map<(string, string), nat>, bound: seq<Connection>, c: Connection, e: End)
    requires Bound(s, idx, bound) && Linked(bound, c) && Has(c, e)
    ensures Used(idx, e)
  {
    hide Used;
    var d := if c in bound then c else Reversed(c);
    assert d in bound;
  }

  /** If an end is used, some bound connection has it. */
  lemma UsedBound(s: seq<Connection>, idx: map<(string, string), nat>, bound: seq<Connection>, e: End)
    requires Bound(s, idx, bound) && Used(idx, e)
    ensures exists c :: c in bound && Has(c, e)
  {
    hide At, Upto;
    var k := Key(e);
    UptoAt(idx[k], e.index);
    AtMember(bound, k, e.index);
  }

  /** The next connection of a good choice is bound, unless its reverse has been. */
  lemma ChosenBound(s: seq<Connection>, idx: map<(string, string), nat>, bound: seq<Connection>,
      half: seq<Connection>, t: nat, e: End)
    requires Bound(s, idx, bound) && Consecutive(half) && t < |half| && Has(half[t], e) && Key(e) in idx
    requires forall u :: 0 <= u < |half| ==> Key(half[u].0) != Key(half[u].1)
    requires forall c :: c in s ==> c in half || Reversed(c) in half
    requires forall u :: 0 <= u < t ==> Linked(bound, half[u])
    requires !Linked(bound, half[t])
    ensures idx[Key(e)] == e.index
  {
    hide At, Upto, Key, Consecutive, Bound, Used;
    EarlierUsed(s, idx, bound, half, t, e);
    if Used(idx, e) {
      UsedBound(s, idx, bound, e);
      var c :| c in bound && Has(c, e);
      BoundListed(s, idx, bound, c);
      var d := if c in half then c else Reversed(c);
      var u :| 0 <= u < |half| && half[u] == d;
      assert Reversed(Reversed(c)) == c;
      EndOnce(half, t, u, e);
      assert false;
    }
    UsedIs(idx, e);
  }

  lemma UsedIs(idx: map<(string, string), nat>, e: End)
    ensures Used(idx, e) <==> Key(e) in idx && e.index < idx[Key(e)]
  {
  }

  lemma BoundListed(s: seq<Connection>, idx: map<(string, string), nat>, bound: seq<Connection>, c: Connection)
    requires Bound(s, idx, bound) && c in bound
    ensures c in s
  {
  }

  lemma {:induction false} PickedFirst(s: seq<Connection>, chosen: set<Connection>, n: nat)
    requires n <= |s|
    ensures Picked(s[..n], chosen) <= Picked(s, chosen)
    decreases |s|
  {
    if n == |s| {
      assert s[..n] == s;
    } else {
      PickedFirst(s[..|s| - 1], chosen, n);
      assert s[..|s| - 1][..n] == s[..n];
    }
  }

  lemma PickedMore(s: seq<Connection>, chosen: set<Connection>, n: nat)
    requires n < |s|
    ensures Picked(s[..n + 1], chosen) == Picked(s[..n], chosen) + if s[n] in chosen then [s[n]] else []
  {
    assert s[..n + 1][..n] == s[..n];
  }

  lemma {:induction false} PickedMembers(s: seq<Connection>, chosen: set<Connection>)
    ensures forall c :: c in Picked(s, chosen) <==> c in s && c in chosen
  {
    if s != [] {
      var n := |s| - 1;
      PickedMembers(s[..n], chosen);
      assert s == s[..n] + [s[n]];
    }
  }

  /** What the pass keeps: the counters and the connections made agree, and no port is joined to itself. */
  ghost predicate Going(s: seq<Connection>, q: Pass) {
    && Bound(s, q.idx, q.bound)
    && (forall c :: c in s ==> Key(c.0) in q.idx && Key(c.1) in q.idx)
    && (forall c :: c in q.bound ==> Key(c.0) != Key(c.1))
  }

  lemma GoingStart(s: seq<Connection>, idx: map<(string, string), nat>)
    requires Symmetric(s) && Fresh(s, idx)
    ensures Going(s, Pass(idx, []))
  {
    NoneBound(s, idx);
    hide Bound;
    forall c | c in s ensures Key(c.1) in idx { assert Reversed(c) in s; }
  }

  lemma GoingStep(s: seq<Connection>, q: Pass, c: Connection)
    requires Going(s, q) && c in s && c.0 != c.1
    ensures Going(s, Tried(q, c)) && q.bound <= Tried(q, c).bound
  {
    hide Bound;
    if q.idx[Key(c.0)] == c.0.index && q.idx[Key(c.1)] == c.1.index {
      BindOne(s, q.idx, q.bound, c);
    }
  }

  lemma {:induction false} GoingOn(s: seq<Connection>, p: Pass, sorted: seq<Connection>, n: nat)
    requires Symmetric(s) && Going(s, p) && n <= |sorted| && forall c :: c in sorted ==> c in s
    ensures Going(s, Passed(p, sorted, n))
  {
    if n > 0 {
      hide Going, Tried;
      GoingOn(s, p, sorted, n - 1);
      GoingStep(s, Passed(p, sorted, n - 1), sorted[n - 1]);
    }
  }

  /** The connections made are those picked from the sorted ones. */
  lemma {:induction false} PassPicks(p: Pass, sorted: seq<Connection>, n: nat)
    requires n <= |sorted| && Distinct(sorted) && p.bound == []
    ensures Picked(sorted[..n], Members(Passed(p, sorted, n).bound)) == Passed(p, sorted, n).bound
    ensures forall c :: c in Passed(p, sorted, n).bound ==> c in sorted[..n]
  {
    if n > 0 {
      PassPicks(p, sorted, n - 1);
      var q, c := Passed(p, sorted, n - 1), sorted[n - 1];
      var q' := Tried(q, c);
      PickedMore(sorted, Members(q'.bound), n - 1);
      assert c !in sorted[..n - 1];
      PickedSame(sorted[..n - 1], Members(q.bound), Members(q'.bound));
    }
  }

  lemma {:induction false} PickedSame(s: seq<Connection>, a: set<Connection>, b: set<Connection>)
    requires forall c :: c in s ==> (c in a <==> c in b)
    ensures Picked(s, a) == Picked(s, b)
  {
    if s != [] { PickedSame(s[..|s| - 1], a, b); }
  }

  lemma {:induction false} CountOnce(s: seq<Connection>, c: Connection)
    requires Distinct(s)
    ensures multiset(s)[c] <= 1
  {
    if s != [] {
      var n := |s| - 1;
      CountOnce(s[..n], c);
      assert s == s[..n] + [s[n]];
      assert s[n] !in s[..n];
    }
  }

  lemma SortDistinct(s: seq<Connection>)
    requires Distinct(s)
    ensures Distinct(Sort(s))
  {
    hide Sort;
    SortBag(s);
    var u := Sort(s);
    forall i, j | 0 <= i < j < |u| ensures u[i] != u[j] {
      CountOnce(s, u[j]);
      assert u == u[..j] + u[j..];
      assert multiset(u) == multiset(u[..j]) + multiset(u[j..]);
      assert u[j..][0] == u[j] && u[j] in multiset(u[j..]);
      assert u[..j][i] == u[i] && u[i] in multiset(u[..j]);
    }
  }

  lemma {:induction false} AtNone(bound: seq<Connection>, k: (string, string))
    requires forall c :: c in bound ==> Key(c.0) != k && Key(c.1) != k
    ensures At(bound, k) == []
  {
    if bound != [] { AtNone(bound[..|bound| - 1], k); }
  }

  /** Every end that a finished pass attached came in order. */
  lemma BoundConsecutive(s: seq<Connection>, q: Pass)
    requires Going(s, q)
    ensures Consecutive(q.bound)
  {
    forall k {:trigger At(q.bound, k)} ensures At(q.bound, k) == Upto(|At(q.bound, k)|) {
      if k in q.idx {
        UptoSize(q.idx[k]);
      } else {
        AtNone(q.bound, k);
      }
    }
  }

  lemma GoingBound(s: seq<Connection>, q: Pass)
    requires Going(s, q)
    ensures Bound(s, q.idx, q.bound) && forall c :: c in q.bound ==> Key(c.0) != Key(c.1)
  {
  }

  lemma BindableOf(s: seq<Connection>, bound: seq<Connection>)
    requires OneWay(s, bound) && (forall c :: c in s ==> (c in bound <==> Reversed(c) !in bound))
    requires (forall c :: c in bound ==> Key(c.0) != Key(c.1)) && Consecutive(bound)
             && Picked(Sort(s), Members(bound)) == bound
    ensures Bindable(s, Members(bound))
  {
    hide Consecutive, Sort, Picked, Key;
  }

  /** A pass over half of the connections shows a choice. */
  lemma PassBindable(s: seq<Connection>, idx: map<(string, string), nat>)
    requires Symmetric(s) && Fresh(s, idx) && |Sort(s)| == |s| && 2 * |Passed(Pass(idx, []), Sort(s), |s|).bound| == |s|
    ensures Bindable(s, Members(Passed(Pass(idx, []), Sort(s), |s|).bound))
  {
    var sorted, p := Sort(s), Pass(idx, []);
    SymmetricDistinct(s);
    hide Sort, Fresh, Symmetric, Going, Bindable, Bound, Consecutive, Passed, Picked, OneWay, Members, Distinct,
         Attached;
    SortMembers(s);
    SortDistinct(s);
    GoingStart(s, idx);
    GoingOn(s, p, sorted, |s|);
    PassPicks(p, sorted, |s|);
    assert sorted[..|s|] == sorted;
    var q := Passed(p, sorted, |s|);
    GoingBound(s, q);
    BoundConsecutive(s, q);
    BoundFacts(s, q.idx, q.bound);
    BindableOf(s, q.bound);
  }

  lemma SymmetricDistinct(s: seq<Connection>)
    requires Symmetric(s)
    ensures Distinct(s)
  {
  }

  /** The pass makes everything that was chosen, in one direction or the other. */
  lemma {:induction false} PassLinks(s: seq<Connection>, sorted: seq<Connection>, p: Pass, chosen: set<Connection>,
      n: nat)
    requires Symmetric(s) && Bindable(s, chosen) && sorted == Sort(s) && n <= |sorted| && p.bound == [] && Going(s, p)
    requires forall c :: c in sorted <==> c in s
    ensures Going(s, Passed(p, sorted, n))
    ensures forall c :: c in Picked(sorted[..n], chosen) ==> Linked(Passed(p, sorted, n).bound, c)
  {
    hide Bindable, Symmetric, Going, Tried, Sort, Linked;
    if n > 0 {
      PassLinks(s, sorted, p, chosen, n - 1);
      var q, c := Passed(p, sorted, n - 1), sorted[n - 1];
      assert Passed(p, sorted, n) == Tried(q, c);
      hide Passed, Picked;
      assert c in sorted;
      SymmetricAt(s, c);
      GoingStep(s, q, c);
      PickedMore(sorted, chosen, n - 1);
      LinkedMore(q.bound, Tried(q, c).bound);
      if c in chosen && !Linked(q.bound, c) {
        StepBinds(s, sorted, chosen, q, n - 1);
        LinkedIn(Tried(q, c).bound, c);
      }
    }
  }

  lemma LinkedIn(bound: seq<Connection>, c: Connection)
    requires c in bound
    ensures Linked(bound, c)
  {
  }

  lemma LinkedMore(a: seq<Connection>, b: seq<Connection>)
    requires a <= b
    ensures forall c :: Linked(a, c) ==> Linked(b, c)
  {
  }

  lemma StepBinds(s: seq<Connection>, sorted: seq<Connection>, chosen: set<Connection>, q: Pass, n: nat)
    requires Symmetric(s) && Bindable(s, chosen) && sorted == Sort(s) && n < |sorted| && Going(s, q)
    requires (forall c :: c in sorted <==> c in s) && sorted[n] in chosen && !Linked(q.bound, sorted[n])
    requires forall c :: c in Picked(sorted[..n], chosen) ==> Linked(q.bound, c)
    ensures sorted[n] in Tried(q, sorted[n]).bound
  {
    hide Sort, Symmetric, Bound, Consecutive;
    var half, t, c := Picked(sorted, chosen), |Picked(sorted[..n], chosen)|, sorted[n];
    PickedMore(sorted, chosen, n);
    PickedFirst(sorted, chosen, n);
    PickedFirst(sorted, chosen, n + 1);
    PickedMembers(sorted, chosen);
    assert half[t] == c;
    forall u | 0 <= u < t ensures Linked(q.bound, half[u]) {
      assert half[u] == Picked(sorted[..n], chosen)[u];
    }
    forall u | 0 <= u < |half| ensures Key(half[u].0) != Key(half[u].1) { assert half[u] in half; }
    hide Picked;
    forall d | d in s ensures d in half || Reversed(d) in half {
      assert Reversed(d) in chosen ==> Reversed(d) in s;
    }
    hide Bindable, Linked;
    assert c in s && Has(half[t], c.0) && Has(half[t], c.1);
    ChosenBound(s, q.idx, q.bound, half, t, c.0);
    ChosenBound(s, q.idx, q.bound, half, t, c.1);
  }

  /** If everything is bound in one direction, half of the connections are bound. */
  lemma AllLinked(s: seq<Connection>, bound: seq<Connection>)
    requires Symmetric(s) && OneWay(s, bound) && forall c :: c in s ==> Linked(bound, c)
    ensures 2 * |bound| == |s|
  {
    Sides(s, bound);
    MembersSize(s);
    MembersSize(bound);
    BackwardSize(bound);
    forall c | c in s ensures c in Members(bound) + Backward(bound) {
      if Reversed(c) in bound { assert Reversed(Reversed(c)) == c; }
    }
    assert Members(bound) + Backward(bound) == Members(s);
  }

  lemma AllChosenLinked(s: seq<Connection>, chosen: set<Connection>, bound: seq<Connection>)
    requires Symmetric(s) && Bindable(s, chosen) && forall c :: c in s && c in chosen ==> Linked(bound, c)
    ensures forall c :: c in s ==> Linked(bound, c)
  {
    hide Consecutive, Picked, Sort, Key;
    forall c | c in s ensures Linked(bound, c) {
      SymmetricAt(s, c);
      assert Reversed(Reversed(c)) == c;
      assert Linked(bound, if c in chosen then c else Reversed(c));
    }
  }

  lemma BindablePasses(s: seq<Connection>, idx: map<(string, string), nat>, chosen: set<Connection>)
    requires Symmetric(s) && Fresh(s, idx) && |Sort(s)| == |s| && Bindable(s, chosen)
    ensures 2 * |Passed(Pass(idx, []), Sort(s), |s|).bound| == |s|
  {
    hide Sort, Passed, Fresh, Symmetric, Going, Bindable, Bound, Picked, Linked, OneWay, Attached;
    var sorted, p := Sort(s), Pass(idx, []);
    SortMembers(s);
    GoingStart(s, idx);
    PassLinks(s, sorted, p, chosen, |s|);
    assert sorted[..|s|] == sorted;
    PickedMembers(sorted, chosen);
    var q := Passed(p, sorted, |s|);
    GoingBound(s, q);
    BoundOneWay(s, q.idx, q.bound);
    AllChosenLinked(s, chosen, q.bound);
    AllLinked(s, q.bound);
  }

  /** One pass is enough exactly if there is a choice of directions for which the sorted order will do. */
  lemma OnePassEnough(s: seq<Connection>, idx: map<(string, string), nat>)
    requires Symmetric(s) && Fresh(s, idx) && |Sort(s)| == |s|
    ensures 2 * |Passed(Pass(idx, []), Sort(s), |s|).bound| == |s| <==> exists chosen {:trigger Bindable(s,
            chosen)} :: Bindable(s, chosen)
  {
    hide Sort, Passed, Fresh, Symmetric, Bindable;
    if 2 * |Passed(Pass(idx, []), Sort(s), |s|).bound| == |s| {
      PassBindable(s, idx);
    }
    if chosen :| Bindable(s, chosen) {
      BindablePasses(s, idx, chosen);
    }
  }

  /** `bind_ports`: one pass over the sorted connections makes those whose ends are next.  If that is half of
      them, then one direction of every connection was made, and each port was attached at 0, 1, 2 and so on;
      otherwise it fails.  It succeeds exactly if there is a choice of directions for which the order of the pass
      will do. */
  method BindPorts(s: seq<Connection>) returns (res: Result<seq<Connection>>, ghost idx0: map<(string, string), nat>)
    requires Symmetric(s)
    ensures Fresh(s, idx0) && |Sort(s)| == |s|
    ensures res.Ok? <==> exists chosen {:trigger Bindable(s, chosen)} :: Bindable(s, chosen)
    ensures res.Ok? ==> res.value == Passed(Pass(idx0, []), Sort(s), |s|).bound
    ensures res.Ok? ==> OneWay(s, res.value) && forall c :: c in s ==> (c in res.value <==> Reversed(c) !in res.value)
    ensures res.Ok? ==> forall c :: c in s ==> Attached(res.value, c.0)
  {
    var idx := ZeroIndices(s);
    idx0 := idx;
    var sorted := Sort(s);
    SortMembers(s);
    var bound: seq<Connection> := [];
    hide Bound, Symmetric, Sort, OneWay, Attached, Bindable, Fresh;
    FreshOf(s, idx);
    OnePassEnough(s, idx);
    NoneBound(s, idx);
    for i := 0 to |sorted|
      invariant Bound(s, idx, bound) && forall c :: c in s ==> Key(c.0) in idx
      invariant Passed(Pass(idx0, []), sorted, i) == Pass(idx, bound)
    {
      var c := sorted[i];
      assert c in sorted;
      SymmetricAt(s, c);
      if idx[Key(c.0)] == c.0.index && idx[Key(c.1)] == c.1.index {
        BindOne(s, idx, bound, c);
        bound := bound + [c];
        idx := idx[Key(c.0) := idx[Key(c.0)] + 1];
        idx := idx[Key(c.1) := idx[Key(c.1)] + 1];
      }
    }
    if 2 * |bound| != |s| {
      return Err("Port bindings can't be ordered"), idx0;
    }
    BoundFacts(s, idx, bound);
    res := Ok(bound);
  }

  lemma FreshOf(s: seq<Connection>, idx: map<(string, string), nat>)
    requires (forall c :: c in s ==> Key(c.0) in idx) && (forall k :: k in idx ==> idx[k] == 0)
    ensures Fresh(s, idx)
  {
  }

  lemma SortMembers(s: seq<Connection>)
    ensures |Sort(s)| == |s| && forall c :: c in Sort(s) <==> c in s
  {
    hide Sort;
    SortBag(s);
    assert |multiset(Sort(s))| == |multiset(s)|;
    forall c ensures c in Sort(s) <==> c in s {
      assert c in multiset(Sort(s)) <==> c in multiset(s);
    }
  }

  lemma NoneBound(s: seq<Connection>, idx: map<(string, string), nat>)
    requires forall k :: k in idx ==> idx[k] == 0
    ensures Bound(s, idx, [])
  {
  }

  lemma SymmetricAt(s: seq<Connection>, c: Connection)
    requires Symmetric(s) && c in s
    ensures Reversed(c) in s && c.0 != c.1
  {
  }

  lemma BoundOneWay(s: seq<Connection>, idx: map<(string, string), nat>, bound: seq<Connection>)
    requires Bound(s, idx, bound)
    ensures OneWay(s, bound) && forall c :: c in bound ==> Attached(bound, c.0) && Attached(bound, c.1)
  {
    forall c | c in bound ensures Attached(bound, c.0) && Attached(bound, c.1) {
      UptoSize(idx[Key(c.0)]);
      UptoSize(idx[Key(c.1)]);
      hide At, Upto;
      assert Used(idx, c.0) && Used(idx, c.1);
    }
  }

  /** What a complete binding means for every listed connection. */
  lemma BoundFacts(s: seq<Connection>, idx: map<(string, string), nat>, bound: seq<Connection>)
    requires Symmetric(s) && Bound(s, idx, bound) && 2 * |bound| == |s|
    ensures OneWay(s, bound) && forall c :: c in s ==> (c in bound <==> Reversed(c) !in bound)
    ensures forall c :: c in s ==> Attached(bound, c.0)
  {
    hide Bound, Attached;
    BoundOneWay(s, idx, bound);
    HalfIsAll(s, bound);
    hide Symmetric, OneWay;
    forall c | c in s ensures Attached(bound, c.0) {
      assert c in bound || Reversed(c) in bound;
      assert Reversed(c).1 == c.0;
    }
  }

  // ------------------------------------------------------------ one pass is not always enough

  function E(name: string, index: nat): End {
    End(name, "p", index)
  }

  /** Four connections in a chain, in both directions: each has to wait for the next one to be made. */
  function Chain(a: string, b: string, c: string, d: string, e: string): seq<Connection> {
    [(E(a, 0), E(c, 1)), (E(b, 0), E(d, 1)), (E(b, 1), E(c, 0)), (E(c, 0), E(b, 1)),
     (E(c, 1), E(a, 0)), (E(d, 0), E(e, 0)), (E(d, 1), E(b, 0)), (E(e, 0), E(d, 0))]
  }

  lemma ChainSorted(a: string, b: string, c: string, d: string, e: string)
    requires Before(a, b) && Before(b, c) && Before(c, d) && Before(d, e)
    ensures Sort(Chain(a, b, c, d, e)) == Chain(a, b, c, d, e)
  {
    hide Before;
    SortSorted(Chain(a, b, c, d, e));
  }

  /** A connection is skipped while an end is not the next one of its port. */
  lemma Skipped(p: Pass, s: seq<Connection>, n: nat, k: (string, string), i: nat)
    requires n < |s| && (s[n].0 == End(k.0, k.1, i) || s[n].1 == End(k.0, k.1, i))
    requires var q := Passed(p, s, n); k in q.idx && q.idx[k] != i
    ensures Passed(p, s, n + 1) == Passed(p, s, n)
  {
  }

  /** Otherwise it is made. */
  lemma Made(p: Pass, s: seq<Connection>, n: nat, f: (string, string), t: (string, string))
    requires n < |s| && f == Key(s[n].0) && t == Key(s[n].1) && f != t
    requires var q := Passed(p, s, n); f in q.idx && t in q.idx && q.idx[f] == s[n].0.index && q.idx[t] == s[n].1.index
    ensures var q := Passed(p, s, n);
            Passed(p, s, n + 1) == Pass(q.idx[f := q.idx[f] + 1][t := q.idx[t] + 1], q.bound + [s[n]])
  {
  }

  lemma ChainFresh(a: string, b: string, c: string, d: string, e: string, idx: map<(string, string), nat>)
    requires Fresh(Chain(a, b, c, d, e), idx)
    ensures forall x :: x == a || x == b || x == c || x == d || x == e ==> (x, "p") in idx && idx[(x, "p")] == 0
  {
    var s := Chain(a, b, c, d, e);
    assert s[0] in s && s[1] in s && s[3] in s && s[5] in s && s[7] in s;
  }

  /** The sorted pass makes only two connections of the chain, so `bind_ports` fails. */
  lemma OnePassMisses(a: string, b: string, c: string, d: string, e: string, idx: map<(string, string), nat>)
    requires a != b && a != c && a != d && a != e && b != c && b != d && b != e && c != d && c != e && d != e
    requires Fresh(Chain(a, b, c, d, e), idx)
    ensures |Passed(Pass(idx, []), Chain(a, b, c, d, e), 8).bound| == 2
  {
    hide Fresh, Tried;
    var s, p := Chain(a, b, c, d, e), Pass(idx, []);
    ChainFresh(a, b, c, d, e, idx);
    assert Passed(p, s, 0) == p;
    hide Passed;
    Skipped(p, s, 0, (c, "p"), 1);
    Skipped(p, s, 1, (d, "p"), 1);
    Skipped(p, s, 2, (b, "p"), 1);
    Skipped(p, s, 3, (b, "p"), 1);
    Skipped(p, s, 4, (c, "p"), 1);
    Made(p, s, 5, (d, "p"), (e, "p"));
    Made(p, s, 6, (d, "p"), (b, "p"));
    Skipped(p, s, 7, (e, "p"), 0);
  }

  /** The connections of the chain in one direction, from its last link on. */
  function LastFirst(a: string, b: string, c: string, d: string, e: string): seq<Connection> {
    [(E(d, 0), E(e, 0)), (E(d, 1), E(b, 0)), (E(c, 0), E(b, 1)), (E(c, 1), E(a, 0))]
  }

  /** Yet in that order all of the chain can be bound. */
  lemma ChainCanBeBound(a: string, b: string, c: string, d: string, e: string, idx: map<(string, string), nat>)
    requires a != b && a != c && a != d && a != e && b != c && b != d && b != e && c != d && c != e && d != e
    requires Fresh(Chain(a, b, c, d, e), idx)
    ensures Passed(Pass(idx, []), LastFirst(a, b, c, d, e), 4).bound == LastFirst(a, b, c, d, e)
  {
    hide Fresh, Tried;
    var order, p := LastFirst(a, b, c, d, e), Pass(idx, []);
    ChainFresh(a, b, c, d, e, idx);
    assert Passed(p, order, 0) == p;
    hide Passed;
    Made(p, order, 0, (d, "p"), (e, "p"));
    Made(p, order, 1, (d, "p"), (b, "p"));
    Made(p, order, 2, (c, "p"), (b, "p"));
    Made(p, order, 3, (c, "p"), (a, "p"));
  }
}
