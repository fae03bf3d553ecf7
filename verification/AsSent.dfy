/** The shadow stack with the words as the filter writes them: neither calls nor switches get through.  What the
    aggregator then compares, and when this is what it should compare. */
module AsSent {
  import opened ShadowStack

  /** The comparisons of returns on an empty stack. */
  function Zeros(words: seq<nat>): seq<Cmp> {
    if words == [] then [] else Zeros(words[..|words| - 1]) + [Cmp(0, words[|words| - 1] / 4)]
  }

  lemma {:induction false} EmptyPops(log: seq<Cmp>, words: seq<nat>)
    requires AllPops(words)
    ensures Replay(Tape([], log), words) == Tape([], log + Zeros(words))
  {
    if words == [] {
      assert log + [] == log;
    } else {
      var n := |words| - 1;
      EmptyPops(log, words[..n]);
      assert log + Zeros(words[..n]) + [Cmp(0, words[n] / 4)] == log + Zeros(words);
    }
  }

  lemma {:induction false} ZerosAppend(a: seq<nat>, b: seq<nat>)
    ensures Zeros(a + b) == Zeros(a) + Zeros(b)
  {
    if b == [] {
      assert a + b == a;
    } else {
      ZerosAppend(a, b[..|b| - 1]);
      assert (a + b)[..|a + b| - 1] == a + b[..|b| - 1];
    }
  }

  lemma {:induction false} WrittenAppend(a: seq<nat>, b: seq<nat>)
    ensures Written(a + b) == Written(a) + Written(b)
  {
    hide Decode, SentAsWritten;
    if b == [] {
      assert a + b == a;
    } else {
      WrittenAppend(a, b[..|b| - 1]);
      assert (a + b)[..|a + b| - 1] == a + b[..|b| - 1];
    }
  }

  /** The words for returns that core 0, and that the other cores, forward. */
  function Own(slices: seq<Slice>): seq<nat> {
    if slices == [] then [] else
        (if slices[0].core == 0 then FilteredAll(IDLE, slices[0].events).sent else []) + Own(slices[1..])
  }

  function Others(slices: seq<Slice>): seq<nat> {
    if slices == [] then [] else
        (if slices[0].core != 0 then FilteredAll(IDLE, slices[0].events).sent else []) + Others(slices[1..])
  }

  /** How many calls core 0 leaves over, and how many switches it sends. */
  function Extra(slices: seq<Slice>): nat {
    if slices == [] then 0 else
        (if slices[0].core == 0 then |FilteredAll(IDLE, slices[0].events).shadow| + 1 else 0) + Extra(slices[1..])
  }

  const NOTHING: Cmp := Cmp(0, 0)

  /** n comparisons of 0 with 0. */
  function Nothings(n: nat): multiset<Cmp> {
    multiset{}[NOTHING := n]
  }

  lemma NothingsAdd(m: nat, n: nat)
    ensures Nothings(m) + Nothings(n) == Nothings(m + n) && Nothings(0) == multiset{}
            && multiset{NOTHING} == Nothings(1)
  {
  }

  /** What is compared of the words meant, as they are written. */
  function Compared(words: seq<nat>): multiset<Cmp> {
    multiset(Zeros(Written(words)))
  }

  /** The comparisons of two lists of words. */
  lemma ZerosBag(a: seq<nat>, b: seq<nat>)
    ensures multiset(Zeros(a + b)) == multiset(Zeros(a)) + multiset(Zeros(b))
  {
    ZerosAppend(a, b);
  }

  lemma WrittenBag(a: seq<nat>, b: seq<nat>)
    ensures Compared(a + b) == Compared(a) + Compared(b)
  {
    WrittenAppend(a, b);
    hide Written, Zeros;
    ZerosBag(Written(a), Written(b));
  }

  lemma Regroup(a: multiset<Cmp>, b: multiset<Cmp>, c: multiset<Cmp>, d: multiset<Cmp>)
    ensures (a + b) + (c + d) == (a + c) + (b + d)
  {
  }

  lemma NoZeros()
    ensures Written([]) == [] && Zeros([]) == [] && Compared([]) == multiset{} && Zeros([0]) == [NOTHING]
  {
    assert [0][..0] == [];
  }

  lemma CallWritten(a: nat)
    ensures Compared([Encode(Push(a))]) == Nothings(1)
  {
    WrittenMore([], Push(a));
    ZeroWord(a);
    NoZeros();
    hide SentAsWritten, Encode, Written, Zeros;
    assert [] + [Encode(Push(a))] == [Encode(Push(a))];
    assert [] + [0] == [0];
  }

  lemma {:induction false} LeftoverWritten(shadow: seq<nat>)
    ensures Compared(Leftover(shadow)) == Nothings(|shadow|)
    decreases |shadow|
  {
    hide Encode, Compared, Nothings;
    NoZeros();
    NothingsAdd(0, 0);
    if shadow != [] {
      var n := |shadow| - 1;
      LeftoverWritten(shadow[..n]);
      CallWritten(shadow[n]);
      WrittenBag([Encode(Push(shadow[n]))], Leftover(shadow[..n]));
      NothingsAdd(1, n);
    }
  }

  lemma SwitchWritten(q: nat)
    ensures Compared([Encode(Switch(q))]) == Nothings(1)
  {
    SwitchZero(q);
    WrittenMore([], Switch(q));
    NoZeros();
    hide SentAsWritten, Encode, Written, Zeros;
    assert [] + [Encode(Switch(q))] == [Encode(Switch(q))];
    assert [] + [0] == [0];
  }

  /** What the aggregator compares of one part of core 0: its returns, and nothing for the rest. */
  lemma PartWritten(events: seq<Event>, q: nat)
    ensures var f := FilteredAll(IDLE, events);
            Compared(Part(events) + [Encode(Switch(q))]) ==
            Compared(f.sent) + Nothings(|f.shadow| + 1)
  {
    hide Compared, Encode, Leftover, FilteredAll, Nothings;
    var f := FilteredAll(IDLE, events);
    SwitchWritten(q);
    LeftoverWritten(f.shadow);
    WrittenBag(f.sent, Leftover(f.shadow));
    WrittenBag(f.sent + Leftover(f.shadow), [Encode(Switch(q))]);
    NothingsAdd(|f.shadow|, 1);
  }

  lemma {:induction false} StreamWritten(slices: seq<Slice>, last: nat)
    ensures Compared(Stream(slices, last, 0)) == Compared(Own(slices)) + Nothings(Extra(slices))
    decreases |slices|
  {
    hide Compared, Encode, Part, FilteredAll, Nothings, Stream, Own, Extra;
    if slices == [] {
      StreamNone(last);
    } else {
      StreamWritten(slices[1..], last);
      if slices[0].core == 0 { StreamOwn(slices, last); } else { StreamOther(slices, last); }
    }
  }

  lemma StreamNone(last: nat)
    ensures Compared(Stream([], last, 0)) == Compared(Own([])) + Nothings(Extra([]))
  {
    NothingsAdd(0, 0);
  }

  lemma StreamOther(slices: seq<Slice>, last: nat)
    requires slices != [] && slices[0].core != 0
    ensures Stream(slices, last, 0) == Stream(slices[1..], last, 0) && Own(slices) == Own(slices[1..])
            && Extra(slices) == Extra(slices[1..])
  {
  }

  lemma StreamOwn(slices: seq<Slice>, last: nat)
    requires slices != [] && slices[0].core == 0
    requires Compared(Stream(slices[1..], last, 0)) == Compared(Own(slices[1..])) + Nothings(Extra(slices[1..]))
    ensures Compared(Stream(slices, last, 0)) == Compared(Own(slices)) + Nothings(Extra(slices))
  {
    hide Compared, Encode, Part, FilteredAll, Nothings;
    var rest, f := slices[1..], FilteredAll(IDLE, slices[0].events);
    var first, more := Part(slices[0].events) + [Encode(Switch(After(slices, last)))], Stream(rest, last, 0);
    assert Stream(slices, last, 0) == first + more;
    assert Own(slices) == f.sent + Own(rest) && Extra(slices) == |f.shadow| + 1 + Extra(rest);
    hide Stream, Own, Extra;
    PartWritten(slices[0].events, After(slices, last));
    WrittenBag(first, more);
    WrittenBag(f.sent, Own(rest));
    NothingsAdd(|f.shadow| + 1, Extra(rest));
    Regroup(Compared(f.sent), Nothings(|f.shadow| + 1), Compared(Own(rest)), Nothings(Extra(rest)));
  }

  /** The comparisons of a part, if all of them find nothing on the stack. */
  lemma PartZeros(t: Tape, events: seq<Event>)
    ensures var got, sent := Replay(t, Part(events)).log, FilteredAll(IDLE, events).sent;
            && t.log <= got && |got| == |t.log| + |sent|
            && ((forall c :: c in got ==> c.expected == 0) ==> got == t.log + Zeros(sent))
  {
    var f := FilteredAll(IDLE, events);
    SendsPops(events);
    PopsLog(t, f.sent);
    ReplayAppend(t, f.sent, Leftover(f.shadow));
    LeftoverReplay(Replay(t, f.sent), f.shadow);
    hide Replay, Leftover, FilteredAll, Decode;
    var got := Replay(t, Part(events)).log;
    assert got == Replay(t, f.sent).log;
    if forall c :: c in got ==> c.expected == 0 {
      ZerosAt(f.sent);
      forall k | 0 <= k < |f.sent| ensures got[|t.log| + k] == Zeros(f.sent)[k] {
        assert got[|t.log| + k] in got;
      }
      assert got == got[..|t.log|] + got[|t.log|..];
      assert got[|t.log|..] == Zeros(f.sent);
    }
  }

  lemma {:induction false} ZerosAt(words: seq<nat>)
    ensures |Zeros(words)| == |words| && forall k :: 0 <= k < |words| ==> Zeros(words)[k] == Cmp(0, words[k] / 4)
  {
    if words != [] { ZerosAt(words[..|words| - 1]); }
  }

  lemma {:induction false} MeantGrows(t: Tape, slices: seq<Slice>)
    ensures t.log <= Meant(t, slices).log
    decreases |slices|
  {
    if slices != [] {
      PartZeros(t, slices[0].events);
      var t' := Replay(t, Part(slices[0].events));
      MeantGrows(t', slices[1..]);
      hide Replay, Part;
      PrefixTrans(t.log, t'.log, Meant(t, slices).log);
    }
  }

  /** What the first part and the rest forward. */
  lemma ForwardedSplit(slices: seq<Slice>)
    requires slices != []
    ensures multiset(Zeros(Own(slices))) + multiset(Zeros(Others(slices))) ==
            multiset(Zeros(FilteredAll(IDLE, slices[0].events).sent))
            + (multiset(Zeros(Own(slices[1..]))) + multiset(Zeros(Others(slices[1..]))))
  {
    hide Zeros, FilteredAll;
    var sent, own, others := FilteredAll(IDLE, slices[0].events).sent, Own(slices[1..]), Others(slices[1..]);
    if slices[0].core == 0 {
      assert Own(slices) == sent + own && Others(slices) == [] + others == others;
      hide Own, Others;
      ZerosBag(sent, own);
    } else {
      assert Own(slices) == [] + own == own && Others(slices) == sent + others;
      hide Own, Others;
      ZerosBag(sent, others);
    }
  }

  lemma {:induction false} MeantZeros(t: Tape, slices: seq<Slice>)
    requires forall c :: c in Meant(t, slices).log ==> c.expected == 0
    ensures multiset(Meant(t, slices).log) ==
            multiset(t.log) + (multiset(Zeros(Own(slices))) + multiset(Zeros(Others(slices))))
    decreases |slices|
  {
    hide Replay, Part, FilteredAll, Zeros;
    if slices == [] {
      NoZeros();
    } else {
      var rest, t' := slices[1..], Replay(t, Part(slices[0].events));
      assert Meant(t, slices) == Meant(t', rest);
      hide Meant, Own, Others;
      MeantGrows(t', rest);
      InPrefix(t'.log, Meant(t', rest).log);
      MeantZeros(t', rest);
      PartZeros(t, slices[0].events);
      ForwardedSplit(slices);
      BagOf(t.log, Zeros(FilteredAll(IDLE, slices[0].events).sent));
    }
  }

  lemma InPrefix(a: seq<Cmp>, b: seq<Cmp>)
    requires a <= b && forall c :: c in b ==> c.expected == 0
    ensures forall c :: c in a ==> c.expected == 0
  {
    forall c | c in a ensures c in b {
      var k :| 0 <= k < |a| && a[k] == c;
      assert b[k] == c;
    }
  }

  lemma BagOf(a: seq<Cmp>, b: seq<Cmp>)
    ensures multiset(a + b) == multiset(a) + multiset(b)
  {
  }

  // ------------------------------------------------------------ sums of addresses

  function Sum(s: seq<Cmp>): nat {
    if s == [] then 0 else Sum(s[..|s| - 1]) + s[|s| - 1].actual
  }

  lemma {:induction false} SumAppend(a: seq<Cmp>, b: seq<Cmp>)
    ensures Sum(a + b) == Sum(a) + Sum(b)
  {
    if b == [] {
      assert a + b == a;
    } else {
      SumAppend(a, b[..|b| - 1]);
      assert (a + b)[..|a + b| - 1] == a + b[..|b| - 1];
    }
  }

  lemma SumOne(x: Cmp)
    ensures Sum([x]) == x.actual
  {
    assert [x][..0] == [];
  }

  lemma SumAround(left: seq<Cmp>, x: Cmp, right: seq<Cmp>)
    ensures Sum(left + [x] + right) == Sum(left + right) + x.actual
  {
    SumOne(x);
    hide Sum;
    SumAppend(left, right);
    SumAppend(left, [x]);
    SumAppend(left + [x], right);
  }

  /** The sum does not depend on the order. */
  lemma {:induction false} SumBag(a: seq<Cmp>, b: seq<Cmp>)
    requires multiset(a) == multiset(b)
    ensures Sum(a) == Sum(b)
    decreases |a|
  {
    assert |multiset(a)| == |a| && |multiset(b)| == |b|;
    if a != [] {
      var n := |a| - 1;
      var front, x := a[..n], a[n];
      assert a == front + [x];
      assert x in multiset(b);
      var i :| 0 <= i < |b| && b[i] == x;
      var left, right := b[..i], b[i + 1..];
      assert b == left + [x] + right;
      hide Sum;
      assert multiset(b) == multiset(left + right) + multiset{x};
      assert multiset(a) == multiset(front) + multiset{x};
      CancelBoth(multiset(front), multiset(left + right), multiset{x});
      SumBag(front, left + right);
      SumAround(left, x, right);
      SumAround(front, x, []);
      assert front + [x] + [] == a && front + [] == front;
    }
  }

  /** A word for a return carries no tag. */
  predicate Returns(words: seq<nat>) {
    forall k :: 0 <= k < |words| ==> words[k] % 4 == 0
  }

  predicate Below64(words: seq<nat>) {
    forall k :: 0 <= k < |words| ==> words[k] < 0x1_0000_0000_0000_0000
  }

  lemma {:induction false} SendsReturns(events: seq<Event>)
    ensures Returns(FilteredAll(IDLE, events).sent)
  {
    if events != [] { SendsReturns(events[..|events| - 1]); }
  }

  lemma {:induction false} OwnReturns(slices: seq<Slice>)
    ensures Returns(Own(slices)) && Returns(Others(slices))
  {
    if slices != [] {
      OwnReturns(slices[1..]);
      SendsReturns(slices[0].events);
      hide FilteredAll;
    }
  }

  lemma ReturnWritten(w: nat)
    requires w % 4 == 0
    ensures SentAsWritten(Decode(w)) == w % 0x1_0000_0000_0000_0000
  {
    assert w == 4 * (w / 4);
  }

  lemma WrittenReturn(words: seq<nat>, w: nat)
    requires w % 4 == 0
    ensures Written(words + [w]) == Written(words) + [w % 0x1_0000_0000_0000_0000]
  {
    ReturnWritten(w);
    hide SentAsWritten, Decode;
    assert (words + [w])[..|words|] == words;
  }

  lemma ZerosSum(words: seq<nat>, w: nat)
    ensures Sum(Zeros(words + [w])) == Sum(Zeros(words)) + w / 4
  {
    assert (words + [w])[..|words|] == words;
    assert Zeros(words + [w]) == Zeros(words) + [Cmp(0, w / 4)];
    hide Zeros;
    SumAppend(Zeros(words), [Cmp(0, w / 4)]);
    SumOne(Cmp(0, w / 4));
  }

  lemma SplitReturns(words: seq<nat>, w: nat)
    ensures Returns(words + [w]) <==> Returns(words) && w % 4 == 0
    ensures Below64(words + [w]) <==> Below64(words) && w < 0x1_0000_0000_0000_0000
  {
    assert (words + [w])[|words|] == w;
    assert forall k :: 0 <= k < |words| ==> (words + [w])[k] == words[k];
  }

  /** Addresses get through up to 62 bits, and no address gets larger. */
  lemma {:induction false} WrittenSum(words: seq<nat>)
    requires Returns(words)
    ensures Sum(Zeros(Written(words))) <= Sum(Zeros(words))
    ensures Sum(Zeros(Written(words))) == Sum(Zeros(words)) ==> Below64(words)
    ensures Below64(words) ==> Written(words) == words
  {
    NoZeros();
    if words != [] {
      hide Written, Zeros, Sum, Returns, Below64;
      var n := |words| - 1;
      var front, w := words[..n], words[n];
      assert words == front + [w];
      SplitReturns(front, w);
      WrittenSum(front);
      WrittenReturn(front, w);
      LowWord(w);
      ZerosSum(front, w);
      ZerosSum(Written(front), w % 0x1_0000_0000_0000_0000);
    }
  }

  lemma LowWord(w: nat)
    requires w % 4 == 0
    ensures w % 0x1_0000_0000_0000_0000 / 4 <= w / 4
    ensures w % 0x1_0000_0000_0000_0000 / 4 == w / 4 ==> w < 0x1_0000_0000_0000_0000
    ensures w < 0x1_0000_0000_0000_0000 ==> w % 0x1_0000_0000_0000_0000 == w
  {
    var q := w / 0x1_0000_0000_0000_0000;
    var low := w % 0x1_0000_0000_0000_0000;
    assert w == 0x1_0000_0000_0000_0000 * q + low;
    assert w / 4 == 0x4000_0000_0000_0000 * q + low / 4;
  }

  predicate AllZero(words: seq<nat>) {
    forall k :: 0 <= k < |words| ==> words[k] == 0
  }

  lemma {:induction false} ZeroSum(words: seq<nat>)
    requires Returns(words)
    ensures Sum(Zeros(words)) == 0 <==> AllZero(words)
    ensures AllZero(words) ==> multiset(Zeros(words)) == Nothings(|words|)
  {
    if words == [] {
      assert Zeros([]) == [];
    } else {
      var n := |words| - 1;
      ZeroSum(words[..n]);
      assert words == words[..n] + [words[n]];
      assert Zeros(words)[..n] == Zeros(words[..n]) by { ZerosAt(words); ZerosAt(words[..n]); }
      ZerosAt(words);
    }
  }

  // ------------------------------------------------------------ the comparisons as written

  /** What the aggregator reads of core 0 in place of the messages meant looks like the comparisons meant: every
      return that is forwarded finds nothing, or 0, on the stack; those of core 0 return to addresses below 2^62;
      and the other cores forward returns to 0 only, as many as core 0 leaves calls over and sends switches. */
  ghost predicate Coincide(slices: seq<Slice>) {
    && (forall c :: c in Meant(Tape([], []), slices).log ==> c.expected == 0)
    && Below64(Own(slices)) && AllZero(Others(slices)) && |Others(slices)| == Extra(slices)
  }

  lemma SizesMatch(own: seq<nat>, others: seq<nat>, extra: nat, nothings: seq<Cmp>)
    requires multiset(Zeros(own) + Zeros(others)) == multiset(Zeros(Written(own)) + nothings) && |nothings| == extra
    ensures |others| == extra
  {
    ZerosAt(own);
    ZerosAt(others);
    ZerosAt(Written(own));
    WrittenPops(own);
    hide Zeros, Written, Decode;
    var a, b := Zeros(own) + Zeros(others), Zeros(Written(own)) + nothings;
    assert |multiset(a)| == |a| && |multiset(b)| == |b|;
  }

  /** Equal comparisons have equal sums and numbers. */
  lemma BagsForce(own: seq<nat>, others: seq<nat>, extra: nat)
    requires multiset(Zeros(own)) + multiset(Zeros(others)) == Compared(own) + Nothings(extra)
    ensures Sum(Zeros(own)) + Sum(Zeros(others)) == Sum(Zeros(Written(own))) && |others| == extra
  {
    var nothings := seq(extra, i => NOTHING);
    NothingBag(extra, nothings);
    hide Written, Zeros, Sum, Nothings;
    var a, b, c := Zeros(own), Zeros(others), Zeros(Written(own));
    assert multiset(a + b) == multiset(c + nothings);
    SizesMatch(own, others, extra, nothings);
    SumBag(a + b, c + nothings);
    SumAppend(a, b);
    SumAppend(c, nothings);
  }

  lemma BagsMatch(own: seq<nat>, others: seq<nat>, extra: nat)
    requires Returns(own) && Returns(others)
    ensures multiset(Zeros(own)) + multiset(Zeros(others)) == Compared(own) + Nothings(extra)
            <==> Below64(own) && AllZero(others) && |others| == extra
  {
    hide Written, Zeros, Below64, AllZero, Sum, Nothings, Returns;
    WrittenSum(own);
    ZeroSum(others);
    if multiset(Zeros(own)) + multiset(Zeros(others)) == Compared(own) + Nothings(extra) {
      BagsForce(own, others, extra);
    }
  }

  lemma {:induction false} NothingBag(n: nat, s: seq<Cmp>)
    requires |s| == n && forall k :: 0 <= k < n ==> s[k] == NOTHING
    ensures multiset(s) == Nothings(n) && Sum(s) == 0
  {
    if n > 0 {
      NothingBag(n - 1, s[..n - 1]);
      assert s == s[..n - 1] + [s[n - 1]];
    }
  }

  lemma ZerosExpected(words: seq<nat>)
    ensures forall c :: c in multiset(Zeros(words)) ==> c.expected == 0
  {
    ZerosAt(words);
  }

  /** The comparisons made as written are the sequential ones exactly if the two coincide. */
  lemma WrittenComparisons(slices: seq<Slice>, last: nat)
    ensures multiset(Sequential(Tape([], []), Whole(slices)).log) == Compared(Stream(slices, last,
            0)) + LocalLog(slices)
            <==> Coincide(slices)
  {
    hide Sequential, Whole, Stream, Written, LocalLog, Zeros, Own, Others, Extra, Below64, AllZero, Meant, Nothings,
         Returns;
    var t := Tape([], []);
    var meant, got := multiset(Meant(t, slices).log), Compared(Stream(slices, last, 0));
    MeantAgrees(t, slices);
    if multiset(Sequential(t, Whole(slices)).log) == got + LocalLog(slices) {
      CancelBoth(meant, got, LocalLog(slices));
    }
    StreamWritten(slices, last);
    OwnReturns(slices);
    BagsMatch(Own(slices), Others(slices), Extra(slices));
    if meant == got {
      ZerosExpected(Written(Stream(slices, last, 0)));
      forall c | c in Meant(t, slices).log ensures c.expected == 0 { assert c in meant; }
    }
    if forall c :: c in Meant(t, slices).log ==> c.expected == 0 {
      MeantZeros(t, slices);
      assert multiset(t.log) == multiset{};
    }
  }

  /** No return goes to address 0. */
  predicate NonZero(slices: seq<Slice>) {
    forall i, k :: 0 <= i < |slices| && 0 <= k < |slices[i].events| && slices[i].events[k].Ret?
        ==> slices[i].events[k].addr != 0
  }

  lemma {:induction false} SentNonZero(events: seq<Event>)
    requires forall k :: 0 <= k < |events| && events[k].Ret? ==> events[k].addr != 0
    ensures forall k :: 0 <= k < |FilteredAll(IDLE, events).sent| ==> FilteredAll(IDLE, events).sent[k] != 0
  {
    if events != [] { SentNonZero(events[..|events| - 1]); }
  }

  lemma {:induction false} OthersNonZero(slices: seq<Slice>)
    requires NonZero(slices)
    ensures forall k :: 0 <= k < |Others(slices)| ==> Others(slices)[k] != 0
  {
    if slices != [] {
      SentNonZero(slices[0].events);
      OthersNonZero(slices[1..]);
      hide FilteredAll;
    }
  }

  lemma {:induction false} SomeExtra(slices: seq<Slice>, i: nat)
    requires i < |slices| && slices[i].core == 0
    ensures Extra(slices) > 0
  {
    if slices[0].core != 0 { SomeExtra(slices[1..], i - 1); }
  }

  /** With return addresses that are not 0, they never are once core 0 has a part of the trace. */
  lemma NeverCoincide(slices: seq<Slice>, i: nat)
    requires NonZero(slices) && i < |slices| && slices[i].core == 0
    ensures !Coincide(slices)
  {
    OthersNonZero(slices);
    SomeExtra(slices, i);
    if |Others(slices)| > 0 { assert Others(slices)[0] != 0; }
  }

  lemma NoEvent()
    ensures FilteredAll(IDLE, []) == IDLE && Part([]) == []
  {
  }

  lemma OneReturn()
    ensures FilteredAll(IDLE, [Ret(0)]) == Local([], [0], []) && Part([Ret(0)]) == [0]
    ensures Replay(Tape([], []), [0]) == Tape([], [NOTHING])
  {
    assert [Ret(0)][..0] == [] && [0][..0] == [];
    assert [] + [0] == [0] && [0] + [] == [0] && [] + [NOTHING] == [NOTHING];
  }

  /** With returns to 0 they may coincide: the word of the switch is taken for the return of core 1. */
  lemma MayCoincide()
    ensures Coincide([Slice(0, []), Slice(1, [Ret(0)])])
  {
    NoEvent();
    OneReturn();
    hide FilteredAll, Part, Replay;
    var t, rest := Tape([], []), [Slice(1, [Ret(0)])];
    var slices := [Slice(0, [])] + rest;
    assert slices == [Slice(0, []), Slice(1, [Ret(0)])] && slices[1..] == rest && rest[1..] == [];
    NoReplay(t);
    assert Meant(Tape([], [NOTHING]), []) == Tape([], [NOTHING]);
    assert Meant(t, rest) == Tape([], [NOTHING]) && Meant(t, slices) == Meant(t, rest);
    assert Own([]) == [] && Own(rest) == [] + Own([]) && Own(slices) == [] + Own(rest);
    assert Others([]) == [] && Others(rest) == [0] + Others([]) == [0] && Others(slices) == [] + Others(rest) == [0];
    assert Extra([]) == 0 && Extra(rest) == 0 && Extra(slices) == 1;
  }

  lemma OneCall(x: nat)
    ensures Sequential(Tape([], []), [Call(7)] + [Ret(x)]) == Tape([], [Cmp(7, x)])
  {
    var events := [Call(7)] + [Ret(x)];
    assert events[..1] == [Call(7)] && events[1] == Ret(x) && [Call(7)][..0] == [];
    assert Sequential(Tape([], []), [Call(7)]) == Tape([7], []) by { assert [7] + [] == [7]; }
    assert [7][1..] == [] && [] + [Cmp(7, x)] == [Cmp(7, x)];
  }

  lemma OneEvent(x: nat)
    ensures FilteredAll(IDLE, [Call(7)]) == Local([7], [], [])
    ensures FilteredAll(IDLE, [Ret(x)]) == Local([], [Encode(Pop(x))], [])
  {
    assert [Call(7)][..0] == [] && [Ret(x)][..0] == [];
    assert [7] + [] == [7] && [] + [Encode(Pop(x))] == [Encode(Pop(x))];
  }

  /** A call on core 0 that returns on core 1, to any address x: the sequential run compares 7 with x, the aggregator
      compares 0 with 0, twice, so a wrong return is missed. */
  lemma MissedReturn(x: nat, last: nat)
    ensures var slices := [Slice(0, [Call(7)]), Slice(1, [Ret(x)])];
            && Sequential(Tape([], []), Whole(slices)) == Tape([], [Cmp(7, x)])
            && Compared(Stream(slices, last, 0)) == Nothings(2)
            && !Coincide(slices)
  {
    hide Sequential, Written, Zeros, Stream, FilteredAll, Encode, Nothings, Meant, Coincide;
    var rest := [Slice(1, [Ret(x)])];
    var slices := [Slice(0, [Call(7)])] + rest;
    assert slices == [Slice(0, [Call(7)]), Slice(1, [Ret(x)])] && slices[1..] == rest && rest[1..] == [];
    assert Whole(rest) == [Ret(x)] by { assert Whole([]) == [] && [Ret(x)] + [] == [Ret(x)]; }
    OneCall(x);
    OneEvent(x);
    assert Own([]) == [] && Own(rest) == [] + Own([]) && Own(slices) == [] + Own(rest);
    assert Extra([]) == 0 && Extra(rest) == 0 && Extra(slices) == 2;
    assert LocalLog([]) == multiset{} && LocalLog(rest) == multiset{} && LocalLog(slices) == multiset{};
    StreamWritten(slices, last);
    NoZeros();
    assert multiset{} + Nothings(2) == Nothings(2);
    WrittenComparisons(slices, last);
    assert |Nothings(2) + multiset{}| == 2 by { NothingsTwo(); }
    assert |multiset([Cmp(7, x)])| == 1;
  }

  lemma NothingsTwo()
    ensures |Nothings(2)| == 2 && Nothings(2) + multiset{} == Nothings(2)
  {
    assert Nothings(2) == multiset{NOTHING, NOTHING};
  }

  /** What arrives from core c, and is never looked at unless c is 0. */
  lemma QueueWritten(m: Merge, slices: seq<Slice>, last: nat, arrivals: seq<(nat, nat)>, c: nat)
    requires Sane(m) && c < CORES && m.queues[c] == []
    requires forall i :: 0 <= i < |arrivals| ==> arrivals[i].0 < CORES && Proper(arrivals[i].1)
    requires From(arrivals, c) == Written(FilteredSlices(IDLE, slices, last, c).sent)
    ensures Fed(m, arrivals).queues[c] == Written(Stream(slices, last, c))
  {
    hide Decode, Written, Stream, Fed, From, FilteredSlices, Sane, Proper;
    FedQueues(m, arrivals, c);
    FilterStreams(IDLE, slices, last, c);
    assert [] + Stream(slices, last, c) == Stream(slices, last, c);
    assert [] + From(arrivals, c) == From(arrivals, c);
  }

  /** Words that are all read as returns are replayed on the empty stack. */
  lemma StaysEmpty(m: Merge, words: seq<nat>)
    requires Sane(m) && m.tape == Tape([], []) && m.queues[m.target] == Written(words)
    ensures Greedy(m) == Merge(Tape([], Zeros(Written(words))), m.target, m.queues[m.target := []])
  {
    hide Decode, Greedy, Replay, Zeros, Written;
    WrittenPops(words);
    EmptyPops([], Written(words));
    assert [] + Zeros(Written(words)) == Zeros(Written(words));
    PopsSwitchless(Written(words));
    TokenStays(m);
  }

  /** What the aggregator ends with: it has never left core 0. */
  lemma AsWrittenEnds(slices: seq<Slice>, last: nat, arrivals: seq<(nat, nat)>)
    requires forall i :: 0 <= i < |arrivals| ==> arrivals[i].0 < CORES && Proper(arrivals[i].1)
    requires forall c :: 0 <= c < CORES ==> From(arrivals, c) == Written(FilteredSlices(IDLE, slices, last, c).sent)
    ensures var m := Greedy(Fed(Merge(Tape([], []), 0, seq(CORES, c => [])), arrivals));
            && m.target == 0 && m.tape == Tape([], Zeros(Written(Stream(slices, last, 0))))
            && (forall c :: 0 < c < CORES ==> m.queues[c] == Written(Stream(slices, last, c)))
  {
    hide Decode, Greedy, Zeros, Written, Stream, Fed, From, FilteredSlices, Proper;
    var m := Merge(Tape([], []), 0, seq(CORES, c => []));
    var fed := Fed(m, arrivals);
    FedQueues(m, arrivals, 0);
    forall c {:trigger Stream(slices, last, c)} | 0 <= c < CORES ensures fed.queues[c] ==
        Written(Stream(slices, last, c)) {
      QueueWritten(m, slices, last, arrivals, c);
    }
    StaysEmpty(fed, Stream(slices, last, 0));
  }

  /** As written, from the empty stack it starts with, the aggregator never leaves core 0 and its stack stays empty;
      so it ends with the sequential stack exactly if that is empty.  Together with the filters it has made the
      sequential comparisons exactly if the two coincide. */
  lemma AsWrittenRun(slices: seq<Slice>, last: nat, arrivals: seq<(nat, nat)>)
    requires forall i :: 0 <= i < |arrivals| ==> arrivals[i].0 < CORES && Proper(arrivals[i].1)
    requires forall c :: 0 <= c < CORES ==> From(arrivals, c) == Written(FilteredSlices(IDLE, slices, last, c).sent)
    ensures var m, whole := Greedy(Fed(Merge(Tape([], []), 0, seq(CORES, c => [])), arrivals)),
            Sequential(Tape([], []), Whole(slices));
            && m.target == 0 && m.tape.stack == []
            && (forall c :: 0 < c < CORES ==> m.queues[c] == Written(Stream(slices, last, c)))
            && (m.tape.stack == whole.stack <==> whole.stack == [])
            && (multiset(whole.log) == multiset(m.tape.log) + LocalLog(slices) <==> Coincide(slices))
  {
    hide Decode, Greedy, Fed, From, FilteredSlices, Sequential, Coincide, LocalLog, Written, Zeros, Whole, Stream;
    AsWrittenEnds(slices, last, arrivals);
    WrittenComparisons(slices, last);
  }

  lemma PopsSwitchless(words: seq<nat>)
    requires AllPops(words)
    ensures NoSwitch(words)
  {
  }
}
