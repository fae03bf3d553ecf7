/** When the aggregator's assertion stops it: a return that does not match stops the program only if it is looked at
    in the main loop, and which ones are depends on the interleaving. */
module Stopping {
  import opened ShadowStack

  // ------------------------------------------------------------ single arrivals

  lemma StopsOne(m: Merge, from: nat, w: nat, rest: seq<(nat, nat)>)
    requires Sane(m) && Deliverable([(from, w)] + rest)
    ensures from < CORES && Proper(w) && Deliverable(rest)
    ensures Stops(m, [(from, w)] + rest) <==> (from == m.target && Mismatch(m.tape, w)) || Stops(Step(m, from, w), rest)
  {
    var all := [(from, w)] + rest;
    assert all[0] == (from, w) && all[1..] == rest;
    assert forall i :: 0 <= i < |rest| ==> rest[i] == all[i + 1];
  }

  lemma StepElsewhere(m: Merge, from: nat, w: nat)
    requires Sane(m) && from < CORES && Proper(w) && from != m.target && m.queues[m.target] == []
    ensures Step(m, from, w) == Enqueued(m, from, w)
  {
  }

  /** A call, a return, or a switch to itself, of the current core. */
  predicate Stays(w: nat, c: nat) {
    Decode(w).Switch? ==> Decode(w).target == c
  }

  lemma StepHere(m: Merge, w: nat)
    requires Sane(m) && Proper(w) && Stays(w, m.target) && m.queues[m.target] == []
    ensures Step(m, m.target, w) == m.(tape := Played(m.tape, w))
  {
    var e := Enqueued(m, m.target, w);
    assert [] + [w] == [w] && [w][1..] == [];
    assert e.queues[m.target] == [w];
    assert e.queues[m.target := []] == m.queues;
    var m' := m.(tape := Played(m.tape, w));
    assert Consumed(e) == m';
    assert Greedy(e) == Greedy(Consumed(e)) && Greedy(m') == m';
  }

  // ------------------------------------------------------------ failures of a list of words

  /** Some return among the words does not match. */
  predicate Fails(t: Tape, words: seq<nat>)
    decreases |words|
  {
    words != [] && (Mismatch(t, words[0]) || Fails(Played(t, words[0]), words[1..]))
  }

  predicate NoneWrong(log: seq<Cmp>) {
    forall k :: 0 <= k < |log| ==> !Wrong(log[k])
  }

  lemma PlayedWrong(t: Tape, w: nat)
    ensures NoneWrong(Played(t, w).log) <==> NoneWrong(t.log) && !Mismatch(t, w)
  {
    if Decode(w).Pop? {
      var log := Played(t, w).log;
      assert log == t.log + [Cmp(Top(t), Decode(w).addr)];
      assert forall k :: 0 <= k < |t.log| ==> log[k] == t.log[k];
      assert log[|t.log|] == Cmp(Top(t), Decode(w).addr);
    }
  }

  lemma {:induction false} FailsLog(t: Tape, words: seq<nat>)
    ensures NoneWrong(Replay(t, words).log) <==> NoneWrong(t.log) && !Fails(t, words)
    decreases |words|
  {
    hide Mismatch, Played, NoneWrong;
    if words != [] {
      var w, rest := words[0], words[1..];
      assert words == [w] + rest;
      PlayedWrong(t, w);
      FailsLog(Played(t, w), rest);
      hide Fails, Replay;
      ReplayAppend(t, [w], rest);
      ReplayWord(t, w);
      assert Fails(t, words) <==> Mismatch(t, w) || Fails(Played(t, w), rest) by { FailsFirst(t, w, rest); }
    }
  }

  lemma FailsFirst(t: Tape, w: nat, rest: seq<nat>)
    ensures Fails(t, [w] + rest) <==> Mismatch(t, w) || Fails(Played(t, w), rest)
  {
    assert ([w] + rest)[0] == w && ([w] + rest)[1..] == rest;
  }

  // ------------------------------------------------------------ words that arrive one after the other

  function Tagged(c: nat, words: seq<nat>): seq<(nat, nat)> {
    if words == [] then [] else [(c, words[0])] + Tagged(c, words[1..])
  }

  predicate AllStay(words: seq<nat>, c: nat) {
    forall k :: 0 <= k < |words| ==> Stays(words[k], c)
  }

  predicate AllProper(words: seq<nat>) {
    forall k :: 0 <= k < |words| ==> Proper(words[k])
  }

  lemma {:induction false} TaggedOK(c: nat, words: seq<nat>, rest: seq<(nat, nat)>)
    requires c < CORES && AllProper(words) && Deliverable(rest)
    ensures Deliverable(Tagged(c, words) + rest)
    decreases |words|
  {
    hide Proper;
    if words == [] {
      assert [] + rest == rest;
    } else {
      TaggedOK(c, words[1..], rest);
      var more := Tagged(c, words[1..]) + rest;
      assert Tagged(c, words) + rest == [(c, words[0])] + more;
    }
  }

  /** Words of the current core are looked at in the main loop. */
  lemma {:induction false} MainLoop(m: Merge, words: seq<nat>, rest: seq<(nat, nat)>)
    requires Sane(m) && m.queues[m.target] == [] && AllStay(words, m.target) && AllProper(words) && Deliverable(rest)
    ensures Deliverable(Tagged(m.target, words) + rest) && Sane(m.(tape := Replay(m.tape, words)))
    ensures Stops(m, Tagged(m.target, words) + rest) <==>
              Fails(m.tape, words) || Stops(m.(tape := Replay(m.tape, words)), rest)
    decreases |words|
  {
    hide Decode, Mismatch, Stops, Fails, Replay, Step, Played, Proper;
    TaggedOK(m.target, words, rest);
    if words == [] {
      assert [] + rest == rest;
      NothingFails(m.tape);
    } else {
      var w, more := words[0], words[1..];
      assert words == [w] + more && forall k :: 0 <= k < |more| ==> more[k] == words[k + 1];
      var later := Tagged(m.target, more) + rest;
      assert Tagged(m.target, words) + rest == [(m.target, w)] + later;
      StopsOne(m, m.target, w, later);
      assert Stays(w, m.target);
      StepHere(m, w);
      var m' := m.(tape := Played(m.tape, w));
      MainLoop(m', more, rest);
      FailsFirst(m.tape, w, more);
      ReplayAppend(m.tape, [w], more);
      ReplayWord(m.tape, w);
    }
  }

  lemma NothingFails(t: Tape)
    ensures !Fails(t, []) && Replay(t, []) == t
  {
  }

  /** Words of another core are only queued. */
  lemma {:induction false} QueueUp(m: Merge, c: nat, words: seq<nat>, rest: seq<(nat, nat)>)
    requires Sane(m) && c < CORES && c != m.target && m.queues[m.target] == [] && AllProper(words) && Deliverable(rest)
    ensures Deliverable(Tagged(c, words) + rest) && Sane(m.(queues := m.queues[c := m.queues[c] + words]))
    ensures Stops(m, Tagged(c, words) + rest) <==> Stops(m.(queues := m.queues[c := m.queues[c] + words]), rest)
    decreases |words|
  {
    hide Decode, Mismatch, Stops, Step, Proper;
    TaggedOK(c, words, rest);
    if words == [] {
      assert [] + rest == rest && m.queues[c] + [] == m.queues[c] && m.queues[c := m.queues[c]] == m.queues;
    } else {
      var w, more := words[0], words[1..];
      assert words == [w] + more && forall k :: 0 <= k < |more| ==> more[k] == words[k + 1];
      var later := Tagged(c, more) + rest;
      assert Tagged(c, words) + rest == [(c, w)] + later;
      StopsOne(m, c, w, later);
      StepElsewhere(m, c, w);
      var m' := Enqueued(m, c, w);
      QueueUp(m', c, more, rest);
      assert m.queues[c] + [w] + more == m.queues[c] + words;
      assert m'.queues[c := m'.queues[c] + more] == m.queues[c := m.queues[c] + words];
    }
  }

  /** Queued words of one core, with switches to itself, are replayed when the token comes. */
  lemma {:induction false} DrainSelf(m: Merge)
    requires Sane(m) && AllStay(m.queues[m.target], m.target)
    ensures Greedy(m) == m.(tape := Replay(m.tape, m.queues[m.target]), queues := m.queues[m.target := []])
    decreases |m.queues[m.target]|
  {
    var q := m.queues[m.target];
    if q == [] {
      assert m.queues[m.target := []] == m.queues;
    } else {
      var w, more := q[0], q[1..];
      assert q == [w] + more && Proper(q[0]) && Stays(q[0], m.target);
      var m' := Consumed(m);
      assert m' == m.(tape := Played(m.tape, w), queues := m.queues[m.target := more]);
      assert forall k :: 0 <= k < |more| ==> more[k] == q[k + 1];
      DrainSelf(m');
      assert m'.queues[m.target := []] == m.queues[m.target := []];
      ReplayAppend(m.tape, [w], more);
      ReplayWord(m.tape, w);
    }
  }

  // ------------------------------------------------------------ interleavings

  /** The arrivals are the words of the filters, in some interleaving. */
  ghost predicate Interleaves(arrivals: seq<(nat, nat)>, slices: seq<Slice>, last: nat) {
    && Deliverable(arrivals)
    && (forall c {:trigger From(arrivals, c)} :: 0 <= c < CORES ==>
        From(arrivals, c) == FilteredSlices(IDLE, slices, last, c).sent)
  }

  predicate OnCores(slices: seq<Slice>, last: nat) {
    last < CORES && forall i :: 0 <= i < |slices| ==> slices[i].core < CORES
  }

  /** The state of an aggregator that starts with the given stack. */
  function Initial(stack: seq<nat>): (m: Merge)
    ensures Sane(m) && m.tape == Tape(stack, []) && m.target == 0 && forall c :: 0 <= c < CORES ==> m.queues[c] == []
  {
    Merge(Tape(stack, []), 0, seq(CORES, c => []))
  }

  lemma SentIsStream(slices: seq<Slice>, last: nat, c: nat)
    ensures FilteredSlices(IDLE, slices, last, c).sent == Stream(slices, last, c)
  {
    hide FilteredSlices, Stream;
    FilterStreams(IDLE, slices, last, c);
    assert [] + Stream(slices, last, c) == Stream(slices, last, c);
  }

  lemma {:induction false} FromAppend(a: seq<(nat, nat)>, b: seq<(nat, nat)>, c: nat)
    ensures From(a + b, c) == From(a, c) + From(b, c)
  {
    if b == [] {
      assert a + b == a;
    } else {
      FromAppend(a, b[..|b| - 1], c);
      assert (a + b)[..|a + b| - 1] == a + b[..|b| - 1];
    }
  }

  lemma FromOne(from: nat, w: nat, c: nat)
    ensures From([(from, w)], c) == if from == c then [w] else []
  {
    assert [(from, w)][..0] == [];
  }

  lemma {:induction false} FromTagged(d: nat, words: seq<nat>, c: nat)
    ensures From(Tagged(d, words), c) == if d == c then words else []
    decreases |words|
  {
    hide From;
    if words == [] {
      FromNone(c);
    } else {
      FromTagged(d, words[1..], c);
      FromOne(d, words[0], c);
      FromAppend([(d, words[0])], Tagged(d, words[1..]), c);
      assert words == [words[0]] + words[1..];
    }
  }

  lemma FromNone(c: nat)
    ensures From([], c) == []
  {
  }

  // ------------------------------------------------------------ the parts before the token leaves its first core

  /** The parts behind those that the core c has at the start. */
  function Tail(slices: seq<Slice>, c: nat): seq<Slice> {
    if slices != [] && slices[0].core == c then Tail(slices[1..], c) else slices
  }

  /** The words of the parts that c has at the start, up to its first switch to another core. */
  function LeadWords(slices: seq<Slice>, c: nat): seq<nat> {
    if slices == [] || slices[0].core != c then []
    else if |slices| > 1 && slices[1].core == c
        then Part(slices[0].events) + ([Encode(Switch(c))] + LeadWords(slices[1..], c))
    else Part(slices[0].events)
  }

  lemma {:induction false} LeadStays(slices: seq<Slice>, c: nat)
    requires c < CORES
    ensures AllStay(LeadWords(slices, c), c) && AllProper(LeadWords(slices, c))
  {
    if slices != [] && slices[0].core == c {
      PartAgrees(Tape([], []), slices[0].events);
      DecodeEncode(Switch(c));
      hide Decode, Encode, Part;
      LeadStays(slices[1..], c);
    }
  }

  lemma {:induction false} TailSmaller(slices: seq<Slice>, last: nat, c: nat)
    ensures |Tail(slices, c)| <= |slices| && (slices != [] && slices[0].core == c ==> |Tail(slices, c)| < |slices|)
    ensures Tail(slices, c) != [] ==> Tail(slices, c)[0].core != c
    ensures OnCores(slices, last) ==> OnCores(Tail(slices, c), last)
  {
    if slices != [] && slices[0].core == c {
      TailSmaller(slices[1..], last, c);
    }
  }

  /** The stream of the first core, and those of the others. */
  lemma {:induction false} StreamLead(slices: seq<Slice>, last: nat, c: nat, d: nat)
    requires slices != [] && slices[0].core == c
    ensures Stream(slices, last, d) ==
            (if d == c then LeadWords(slices, c) + [Encode(Switch(First(Tail(slices, c), last)))]
              else []) + Stream(Tail(slices, c), last, d)
    decreases |slices|
  {
    hide Encode, Part;
    var rest := slices[1..];
    StreamSplit(slices, last, d);
    if |slices| > 1 && slices[1].core == c {
      StreamLead(rest, last, c, d);
      assert rest[0] == slices[1];
      if d == c {
        var p, w, l, x, s := Part(slices[0].events), [Encode(Switch(c))], LeadWords(rest, c),
            [Encode(Switch(First(Tail(slices, c), last)))], Stream(Tail(slices, c), last, d);
        assert p + (w + (l + x + s)) == (p + (w + l)) + x + s;
      }
    } else {
      assert Tail(slices, c) == rest && After(slices, last) == First(rest, last);
      if d == c {
        var p, x, s := Part(slices[0].events), [Encode(Switch(First(rest, last)))], Stream(rest, last, d);
        assert p + (x + s) == p + x + s;
      } else {
        assert [] + Stream(rest, last, d) == Stream(rest, last, d);
      }
    }
  }

  // ------------------------------------------------------------ no interleaving can avoid it

  lemma DeliverFirst(arrivals: seq<(nat, nat)>)
    requires Deliverable(arrivals) && arrivals != []
    ensures arrivals == [(arrivals[0].0, arrivals[0].1)] + arrivals[1..] && Deliverable(arrivals[1..])
    ensures forall c :: From(arrivals, c) == (if arrivals[0].0 == c then [arrivals[0].1]
            else []) + From(arrivals[1..], c)
  {
    var from, w, rest := arrivals[0].0, arrivals[0].1, arrivals[1..];
    assert arrivals == [(from, w)] + rest;
    forall c ensures From(arrivals, c) == (if from == c then [w] else []) + From(rest, c) {
      FromAppend([(from, w)], rest, c);
      FromOne(from, w, c);
    }
  }

  /** The words a core sends before it passes the token on are all looked at in the main loop. */
  lemma {:induction false} Forced(m: Merge, arrivals: seq<(nat, nat)>, words: seq<nat>)
    requires Sane(m) && Deliverable(arrivals) && m.queues[m.target] == []
    requires words <= From(arrivals, m.target) && AllStay(words, m.target) && Fails(m.tape, words)
    ensures Stops(m, arrivals)
    decreases |arrivals|
  {
    hide Decode, Mismatch, Stops, Step, Played, Proper, From;
    if arrivals == [] {
      FromNone(m.target);
    } else {
      DeliverFirst(arrivals);
      var from, w, rest := arrivals[0].0, arrivals[0].1, arrivals[1..];
      StopsOne(m, from, w, rest);
      if from != m.target {
        StepElsewhere(m, from, w);
        assert [] + From(rest, m.target) == From(rest, m.target);
        Forced(Enqueued(m, from, w), rest, words);
      } else {
        assert words[0] == w && words[1..] <= From(rest, m.target) && Stays(words[0], m.target);
        StepHere(m, w);
        if !Mismatch(m.tape, w) {
          Forced(m.(tape := Played(m.tape, w)), rest, words[1..]);
        }
      }
    }
  }

  // ------------------------------------------------------------ an interleaving that avoids the main loop

  /** The token is with core b, which still has to pass it on: what the next core has to say arrives first. */
  function Ahead(slices: seq<Slice>, last: nat, b: nat): seq<(nat, nat)>
    decreases |slices|
  {
    if slices == [] then [(b, Encode(Switch(last)))]
    else
      var c := slices[0].core;
      TailSmaller(slices, last, c);
      Tagged(c, LeadWords(slices, c)) + ([(b, Encode(Switch(c)))] + Ahead(Tail(slices, c), last, c))
  }

  lemma SwitchProper(q: nat)
    ensures Decode(Encode(Switch(q))) == Switch(q) && (q < CORES ==> Proper(Encode(Switch(q))))
  {
    DecodeEncode(Switch(q));
  }

  lemma {:induction false} AheadOK(slices: seq<Slice>, last: nat, b: nat)
    requires OnCores(slices, last) && b < CORES
    ensures Deliverable(Ahead(slices, last, b))
    decreases |slices|
  {
    hide Decode, Encode, Proper;
    if slices == [] {
      SwitchProper(last);
    } else {
      var c := slices[0].core;
      TailSmaller(slices, last, c);
      AheadOK(Tail(slices, c), last, c);
      SwitchProper(c);
      LeadStays(slices, c);
      TaggedOK(c, LeadWords(slices, c), [(b, Encode(Switch(c)))] + Ahead(Tail(slices, c), last, c));
    }
  }

  lemma {:induction false} AheadFrom(slices: seq<Slice>, last: nat, b: nat, x: nat)
    requires slices != [] ==> slices[0].core != b
    ensures From(Ahead(slices, last, b), x) == (if x == b then [Encode(Switch(First(slices, last)))]
            else []) + Stream(slices, last, x)
    decreases |slices|
  {
    hide Encode, From;
    if slices == [] {
      FromOne(b, Encode(Switch(last)), x);
    } else {
      var c := slices[0].core;
      var words, more, w := LeadWords(slices, c), Tail(slices, c), Encode(Switch(c));
      TailSmaller(slices, last, c);
      AheadFrom(more, last, c, x);
      StreamLead(slices, last, c, x);
      FromTagged(c, words, x);
      FromOne(b, w, x);
      FromAppend([(b, w)], Ahead(more, last, c), x);
      FromAppend(Tagged(c, words), [(b, w)] + Ahead(more, last, c), x);
      hide Stream, Ahead, LeadWords, Tail, First;
      Shuffle(words, [w], [Encode(Switch(First(more, last)))], Stream(more, last, x));
    }
  }

  lemma Shuffle(words: seq<nat>, w: seq<nat>, e: seq<nat>, s: seq<nat>)
    ensures words + ([] + (e + s)) == [] + (words + e + s)
    ensures [] + (w + ([] + s)) == w + ([] + s)
    ensures [] + ([] + ([] + s)) == [] + ([] + s)
  {
    assert [] + s == s;
  }

  predicate Empty(m: Merge)
    requires Sane(m)
  {
    forall c :: 0 <= c < CORES ==> m.queues[c] == []
  }

  /** The current core passes the token on to a core whose words are queued. */
  lemma PassOn(m: Merge, c: nat, words: seq<nat>)
    requires Sane(m) && c < CORES && c != m.target && m.queues[m.target] == [] && m.queues[c] == words
             && AllStay(words, c)
    ensures Proper(Encode(Switch(c))) && !Mismatch(m.tape, Encode(Switch(c)))
    ensures Step(m, m.target, Encode(Switch(c))) == m.(tape := Replay(m.tape, words), target := c,
            queues := m.queues[c := []])
  {
    var w := Encode(Switch(c));
    SwitchProper(c);
    hide Encode, Decode;
    var e := Enqueued(m, m.target, w);
    assert [] + [w] == [w] && [w][1..] == [];
    assert e.queues[m.target := []] == m.queues;
    var m' := m.(target := c);
    assert Consumed(e) == m';
    assert Greedy(e) == Greedy(m');
    DrainSelf(m');
  }

  /** Then nothing is looked at in the main loop but switches, and the program does not stop. */
  lemma {:induction false} AheadRuns(m: Merge, slices: seq<Slice>, last: nat)
    requires Sane(m) && Empty(m) && OnCores(slices, last) && (slices != [] ==> slices[0].core != m.target)
    ensures Deliverable(Ahead(slices, last, m.target)) && !Stops(m, Ahead(slices, last, m.target))
    decreases |slices|
  {
    hide Decode, Encode, Mismatch, Stops, Step, Proper, LeadWords, Tail;
    AheadOK(slices, last, m.target);
    if slices == [] {
      SwitchStops(m, last);
    } else {
      var c := slices[0].core;
      var words, more := LeadWords(slices, c), Tail(slices, c);
      TailSmaller(slices, last, c);
      LeadStays(slices, c);
      AheadOK(more, last, c);
      SwitchProper(c);
      var w, later := Encode(Switch(c)), Ahead(more, last, c);
      assert Deliverable([(m.target, w)] + later);
      QueueUp(m, c, words, [(m.target, w)] + later);
      assert [] + words == words;
      var m1 := m.(queues := m.queues[c := words]);
      StopsOne(m1, m.target, w, later);
      PassOn(m1, c, words);
      var m2 := m1.(tape := Replay(m.tape, words), target := c, queues := m1.queues[c := []]);
      assert m1.queues[c := []] == m.queues;
      AheadRuns(m2, more, last);
    }
  }

  lemma SwitchStops(m: Merge, q: nat)
    requires Sane(m) && q < CORES
    ensures Deliverable([(m.target, Encode(Switch(q)))]) && !Stops(m, [(m.target, Encode(Switch(q)))])
  {
    var w := Encode(Switch(q));
    SwitchProper(q);
    hide Encode, Decode, Step;
    assert [(m.target, w)] + [] == [(m.target, w)];
    StopsOne(m, m.target, w, []);
    assert !Mismatch(m.tape, w);
  }

  // ------------------------------------------------------------ program order

  /** Every word arrives when its turn comes. */
  function InTurn(slices: seq<Slice>, last: nat): seq<(nat, nat)> {
    if slices == [] then []
    else Tagged(slices[0].core, Part(slices[0].events)) + ([(slices[0].core,
      Encode(Switch(After(slices, last))))] + InTurn(slices[1..], last))
  }

  lemma PartProper(events: seq<Event>, c: nat)
    ensures AllStay(Part(events), c) && AllProper(Part(events))
  {
    PartAgrees(Tape([], []), events);
    hide Part, Decode;
  }

  lemma {:induction false} InTurnOK(slices: seq<Slice>, last: nat)
    requires OnCores(slices, last)
    ensures Deliverable(InTurn(slices, last))
  {
    hide Decode, Encode, Proper, Part;
    if slices != [] {
      InTurnOK(slices[1..], last);
      SwitchProper(After(slices, last));
      PartProper(slices[0].events, slices[0].core);
      TaggedOK(slices[0].core, Part(slices[0].events), [(slices[0].core,
        Encode(Switch(After(slices, last))))] + InTurn(slices[1..], last));
    }
  }

  lemma {:induction false} InTurnFrom(slices: seq<Slice>, last: nat, x: nat)
    ensures From(InTurn(slices, last), x) == Stream(slices, last, x)
  {
    hide Encode, From, Part;
    if slices == [] {
      FromNone(x);
    } else {
      var c, words, w := slices[0].core, Part(slices[0].events), Encode(Switch(After(slices, last)));
      InTurnFrom(slices[1..], last, x);
      StreamSplit(slices, last, x);
      FromTagged(c, words, x);
      FromOne(c, w, x);
      FromAppend([(c, w)], InTurn(slices[1..], last), x);
      FromAppend(Tagged(c, words), [(c, w)] + InTurn(slices[1..], last), x);
      hide Stream, InTurn;
      var s := Stream(slices[1..], last, x);
      if x != c { assert [] + ([] + s) == s; }
    }
  }

  /** The token passes to a core with nothing queued. */
  lemma PassEmpty(m: Merge, q: nat)
    requires Sane(m) && Empty(m) && q < CORES
    ensures Proper(Encode(Switch(q))) && !Mismatch(m.tape, Encode(Switch(q)))
    ensures Step(m, m.target, Encode(Switch(q))) == m.(target := q)
  {
    var w := Encode(Switch(q));
    SwitchProper(q);
    hide Encode, Decode;
    var e := Enqueued(m, m.target, w);
    assert [] + [w] == [w] && [w][1..] == [];
    assert e.queues[m.target := []] == m.queues;
    assert Consumed(e) == m.(target := q);
    assert Greedy(e) == Greedy(m.(target := q));
  }

  /** In program order all words are looked at in the main loop, so it stops if any return does not match. */
  lemma {:induction false} InTurnStops(m: Merge, slices: seq<Slice>, last: nat)
    requires Sane(m) && Empty(m) && OnCores(slices, last) && m.target == First(slices, last) && NoneWrong(m.tape.log)
    ensures Deliverable(InTurn(slices, last)) && (NoneWrong(Meant(m.tape, slices).log)
            || Stops(m, InTurn(slices, last)))
    decreases |slices|
  {
    hide Decode, Encode, Mismatch, Stops, Step, Proper, Part, NoneWrong, Fails, Replay;
    InTurnOK(slices, last);
    if slices != [] {
      var c, words, q := slices[0].core, Part(slices[0].events), After(slices, last);
      var w, later := Encode(Switch(q)), InTurn(slices[1..], last);
      InTurnOK(slices[1..], last);
      SwitchProper(q);
      PartProper(slices[0].events, c);
      assert Deliverable([(c, w)] + later);
      MainLoop(m, words, [(c, w)] + later);
      FailsLog(m.tape, words);
      if !Fails(m.tape, words) {
        var m1 := m.(tape := Replay(m.tape, words));
        StopsOne(m1, c, w, later);
        PassEmpty(m1, q);
        InTurnStops(m1.(target := q), slices[1..], last);
      }
    }
  }

  // ------------------------------------------------------------ all, some or no interleavings

  lemma FrontOK(from: nat, w: nat, rest: seq<(nat, nat)>)
    requires Deliverable([(from, w)] + rest)
    ensures from < CORES && Proper(w) && Deliverable(rest)
  {
    var all := [(from, w)] + rest;
    assert all[0] == (from, w) && forall i :: 0 <= i < |rest| ==> rest[i] == all[i + 1];
  }

  lemma FedLast(m: Merge, front: seq<(nat, nat)>, from: nat, w: nat)
    requires Sane(m) && Deliverable(front + [(from, w)])
    ensures from < CORES && Proper(w) && Deliverable(front) && Fed(m, front + [(from, w)]) ==
            Enqueued(Fed(m, front), from, w)
  {
    var all := front + [(from, w)];
    assert all[|front|] == (from, w) && forall i :: 0 <= i < |front| ==> front[i] == all[i];
    assert all[..|front|] == front;
  }

  lemma {:induction false} FedFront(m: Merge, from: nat, w: nat, rest: seq<(nat, nat)>)
    requires Sane(m) && Deliverable([(from, w)] + rest)
    ensures from < CORES && Proper(w) && Deliverable(rest) && Fed(m, [(from, w)] + rest) ==
            Fed(Enqueued(m, from, w), rest)
    decreases |rest|
  {
    FrontOK(from, w, rest);
    if rest == [] {
      assert [] + [(from, w)] == [(from, w)] == [(from, w)] + rest;
      FedLast(m, [], from, w);
    } else {
      hide Proper, Sane, Fed, Enqueued, Deliverable;
      var n := |rest| - 1;
      var front, v, x := rest[..n], rest[n].0, rest[n].1;
      assert rest == front + [(v, x)];
      assert [(from, w)] + rest == ([(from, w)] + front) + [(v, x)];
      FedLast(m, [(from, w)] + front, v, x);
      FedFront(m, from, w, front);
      FedLast(Enqueued(m, from, w), front, v, x);
    }
  }

  /** Draining first makes no difference. */
  lemma {:induction false} GreedyFed(m: Merge, arrivals: seq<(nat, nat)>)
    requires Sane(m) && Deliverable(arrivals)
    ensures Greedy(Fed(Greedy(m), arrivals)) == Greedy(Fed(m, arrivals))
    decreases |arrivals|
  {
    hide Proper, Sane, Decode;
    if arrivals == [] {
      GreedyTwice(m);
    } else {
      hide Greedy;
      var n := |arrivals| - 1;
      var front, from, w := arrivals[..n], arrivals[n].0, arrivals[n].1;
      GreedyFed(m, front);
      var a, b := Fed(Greedy(m), front), Fed(m, front);
      assert Fed(Greedy(m), arrivals) == Enqueued(a, from, w) && Fed(m, arrivals) == Enqueued(b, from, w);
      GreedyFirst(a, from, w);
      GreedyFirst(b, from, w);
    }
  }

  lemma GreedyTwice(m: Merge)
    requires Sane(m)
    ensures Greedy(Greedy(m)) == Greedy(m)
  {
  }

  lemma PrefixWrong(a: seq<Cmp>, b: seq<Cmp>)
    requires a <= b && NoneWrong(b)
    ensures NoneWrong(a)
  {
    assert forall k :: 0 <= k < |a| ==> a[k] == b[k];
  }

  /** A return that stops the program is among the comparisons. */
  lemma {:induction false} StopsWrong(m: Merge, arrivals: seq<(nat, nat)>)
    requires Sane(m) && Deliverable(arrivals) && m.queues[m.target] == [] && Stops(m, arrivals)
    ensures !NoneWrong(Greedy(Fed(m, arrivals)).tape.log)
    decreases |arrivals|
  {
    hide Proper, Decode, Mismatch, NoneWrong, Greedy, Fed;
    DeliverFirst(arrivals);
    var from, w, rest := arrivals[0].0, arrivals[0].1, arrivals[1..];
    var m' := Step(m, from, w);
    FedFront(m, from, w, rest);
    GreedyFed(Enqueued(m, from, w), rest);
    assert Greedy(Fed(m, arrivals)) == Greedy(Fed(m', rest));
    if from == m.target && Mismatch(m.tape, w) {
      MismatchLogged(m, w);
      FedLog(m', rest, 0);
      FedNothing(m', rest);
      if NoneWrong(Greedy(Fed(m', rest)).tape.log) { PrefixWrong(m'.tape.log, Greedy(Fed(m', rest)).tape.log); }
    } else {
      StopsWrong(m', rest);
    }
  }

  lemma MismatchLogged(m: Merge, w: nat)
    requires Sane(m) && Proper(w) && m.queues[m.target] == [] && Mismatch(m.tape, w)
    ensures !NoneWrong(Step(m, m.target, w).tape.log)
  {
    assert Stays(w, m.target);
    StepHere(m, w);
    hide Step;
    PlayedWrong(m.tape, w);
  }

  lemma FedNothing(m: Merge, arrivals: seq<(nat, nat)>)
    requires Sane(m) && m.queues[m.target] == []
    ensures Greedy(Fed(m, arrivals[..0])) == m
  {
    assert arrivals[..0] == [];
  }

  /** Draining the streams gives the tape of the words meant. */
  lemma {:induction false} AssembledTape(m: Merge, slices: seq<Slice>, last: nat)
    requires Sane(m) && OnCores(slices, last) && m.target == First(slices, last)
    requires forall c :: 0 <= c < CORES ==> m.queues[c] == Stream(slices, last, c)
    ensures Greedy(m).tape == Meant(m.tape, slices)
    decreases |slices|
  {
    if slices != [] {
      hide Greedy, Replay, Part, Stream;
      var m' := FirstPart(m, slices, last);
      AssembledTape(m', slices[1..], last);
    }
  }

  /** Whatever the interleaving, the aggregator's comparisons would be those of the words meant. */
  lemma InterleavedTape(stack: seq<nat>, slices: seq<Slice>, last: nat, arrivals: seq<(nat, nat)>)
    requires OnCores(slices, last) && First(slices, last) == 0 && Interleaves(arrivals, slices, last)
    ensures Greedy(Fed(Initial(stack), arrivals)).tape == Meant(Tape(stack, []), slices)
  {
    hide Greedy, FilteredSlices, Decode, Proper, Meant;
    var m := Initial(stack);
    hide Initial;
    FedQueues(m, arrivals, 0);
    forall c | 0 <= c < CORES ensures Fed(m, arrivals).queues[c] == Stream(slices, last, c) {
      FedQueues(m, arrivals, c);
      SentIsStream(slices, last, c);
      assert [] + From(arrivals, c) == From(arrivals, c);
    }
    AssembledTape(Fed(m, arrivals), slices, last);
  }

  /** Some interleaving stops exactly if some return that is forwarded does not match; so none does exactly if all of
      them match. */
  lemma SomeStop(stack: seq<nat>, slices: seq<Slice>, last: nat)
    requires OnCores(slices, last) && First(slices, last) == 0
    ensures (exists arrivals {:trigger Interleaves(arrivals, slices, last)} ::
              Interleaves(arrivals, slices, last) && Stops(Initial(stack), arrivals))
            <==> !NoneWrong(Meant(Tape(stack, []), slices).log)
  {
    var m := Initial(stack);
    if arrivals :| Interleaves(arrivals, slices, last) && Stops(m, arrivals) {
      InterleavedTape(stack, slices, last, arrivals);
      hide Stops, Greedy, Fed, Initial, NoneWrong, Meant, From;
      StopsWrong(m, arrivals);
    }
    if !NoneWrong(Meant(Tape(stack, []), slices).log) {
      hide Stops, Meant, Initial;
      InTurnStops(m, slices, last);
      InTurnInterleaves(slices, last);
    }
  }

  lemma InTurnInterleaves(slices: seq<Slice>, last: nat)
    requires OnCores(slices, last)
    ensures Interleaves(InTurn(slices, last), slices, last)
  {
    hide InTurn, FilteredSlices, Stream;
    InTurnOK(slices, last);
    var arrivals := InTurn(slices, last);
    forall c {:trigger From(arrivals, c)} | 0 <= c < CORES ensures From(arrivals, c) ==
        FilteredSlices(IDLE, slices, last, c).sent {
      InTurnFrom(slices, last, c);
      SentIsStream(slices, last, c);
    }
  }

  /** The words of the first core in the main loop, everything else ahead of the token. */
  function Careful(slices: seq<Slice>, last: nat): seq<(nat, nat)> {
    if slices == [] then [] else Tagged(0, LeadWords(slices, 0)) + Ahead(Tail(slices, 0), last, 0)
  }

  lemma CarefulInterleaves(slices: seq<Slice>, last: nat)
    requires OnCores(slices, last) && First(slices, last) == 0
    ensures Interleaves(Careful(slices, last), slices, last)
  {
    hide FilteredSlices, Stream, From, LeadWords, Ahead, Tail, Encode, Proper;
    var arrivals := Careful(slices, last);
    if slices != [] {
      TailSmaller(slices, last, 0);
      AheadOK(Tail(slices, 0), last, 0);
      LeadStays(slices, 0);
      TaggedOK(0, LeadWords(slices, 0), Ahead(Tail(slices, 0), last, 0));
    }
    forall c {:trigger From(arrivals, c)} | 0 <= c < CORES ensures From(arrivals, c) ==
        FilteredSlices(IDLE, slices, last, c).sent {
      SentIsStream(slices, last, c);
      if slices == [] {
        FromNone(c);
        NoStream(last, c);
      } else {
        CarefulFrom(slices, last, c);
      }
    }
  }

  lemma NoStream(last: nat, c: nat)
    ensures Stream([], last, c) == []
  {
  }

  lemma CarefulFrom(slices: seq<Slice>, last: nat, c: nat)
    requires slices != [] && slices[0].core == 0
    ensures From(Careful(slices, last), c) == Stream(slices, last, c)
  {
    hide Stream, From, LeadWords, Ahead, Tail, Encode;
    var words, more := LeadWords(slices, 0), Tail(slices, 0);
    TailSmaller(slices, last, 0);
    FromTagged(0, words, c);
    FromAppend(Tagged(0, words), Ahead(more, last, 0), c);
    AheadFrom(more, last, 0, c);
    StreamLead(slices, last, 0, c);
    var s, e := Stream(more, last, c), [Encode(Switch(First(more, last)))];
    if c == 0 { assert words + (e + s) == words + e + s; } else { assert [] + ([] + s) == [] + s; }
  }

  lemma CarefulStops(stack: seq<nat>, slices: seq<Slice>, last: nat)
    requires OnCores(slices, last) && First(slices, last) == 0 && !Fails(Tape(stack, []), LeadWords(slices, 0))
    ensures Deliverable(Careful(slices, last)) && !Stops(Initial(stack), Careful(slices, last))
  {
    hide Stops, LeadWords, Ahead, Tail, Fails, Replay, Proper;
    if slices == [] {
      NoArrivals(Initial(stack));
    } else {
      var m := Initial(stack);
      hide Initial;
      var words, more := LeadWords(slices, 0), Tail(slices, 0);
      TailSmaller(slices, last, 0);
      LeadStays(slices, 0);
      AheadOK(more, last, 0);
      MainLoop(m, words, Ahead(more, last, 0));
      AheadRuns(m.(tape := Replay(m.tape, words)), more, last);
    }
  }

  lemma NoArrivals(m: Merge)
    requires Sane(m)
    ensures !Stops(m, [])
  {
  }

  /** All interleavings stop exactly if a return that core 0 forwards before it first passes the token on does not
      match; every other one can be kept out of the main loop. */
  lemma AllStop(stack: seq<nat>, slices: seq<Slice>, last: nat)
    requires OnCores(slices, last) && First(slices, last) == 0
    ensures (forall arrivals {:trigger Interleaves(arrivals, slices, last)} ::
              Interleaves(arrivals, slices, last) ==> Stops(Initial(stack), arrivals))
            <==> !NoneWrong(Replay(Tape(stack, []), LeadWords(slices, 0)).log)
  {
    var t, words := Tape(stack, []), LeadWords(slices, 0);
    FailsLog(t, words);
    hide Fails, Replay, Stops;
    if Fails(t, words) {
      forall arrivals {:trigger Interleaves(arrivals, slices, last)} | Interleaves(arrivals, slices, last)
          ensures Stops(Initial(stack), arrivals) {
        LeadArrives(slices, last, arrivals);
        LeadStays(slices, 0);
        Forced(Initial(stack), arrivals, words);
      }
    } else {
      CarefulInterleaves(slices, last);
      CarefulStops(stack, slices, last);
    }
  }

  lemma LeadArrives(slices: seq<Slice>, last: nat, arrivals: seq<(nat, nat)>)
    requires Interleaves(arrivals, slices, last) && First(slices, last) == 0
    ensures LeadWords(slices, 0) <= From(arrivals, 0)
  {
    hide FilteredSlices, Stream, From, Tail;
    assert From(arrivals, 0) == FilteredSlices(IDLE, slices, last, 0).sent;
    SentIsStream(slices, last, 0);
    if slices != [] {
      StreamLead(slices, last, 0, 0);
    }
  }
}
