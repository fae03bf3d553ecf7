/** The parallel shadow stack: filter cores that match calls and returns locally, and an aggregator
    that merges their asynchronous message streams back into program order. */
module ShadowStack {

  const CORES: nat := 12

  // ------------------------------------------------------------ messages

  datatype Msg = Push(addr: nat) | Pop(addr: nat) | Switch(target: nat)

  /** How the aggregator reads a message word: two tag bits below the address. */
  function Decode(w: nat): Msg {
    if w % 4 == 2 then Switch(w / 4) else if w % 4 == 1 then Push(w / 4) else Pop(w / 4)
  }

  /** The encoding the decoder expects. */
  function Encode(m: Msg): nat {
    match m
    case Push(a) => 4 * a + 1
    case Pop(a) => 4 * a
    case Switch(q) => 4 * q + 2
  }

  /** The two tag bits, as numbers: 1 is a call, 2 a switch, 0 and 3 are returns. */
  lemma Tags(a: nat)
    ensures Decode(4 * a) == Pop(a) && Decode(4 * a + 1) == Push(a) && Decode(4 * a + 2) == Switch(a)
    ensures Decode(4 * a + 3) == Pop(a)
    ensures Encode(Pop(a)) == 4 * a && Encode(Push(a)) == 4 * a + 1 && Encode(Switch(a)) == 4 * a + 2
  {
    assert 4 * a % 4 == 0 && 4 * a / 4 == a;
    assert (4 * a + 1) % 4 == 1 && (4 * a + 1) / 4 == a;
    assert (4 * a + 2) % 4 == 2 && (4 * a + 2) / 4 == a;
    assert (4 * a + 3) % 4 == 3 && (4 * a + 3) / 4 == a;
  }

  lemma DecodeEncode(m: Msg)
    ensures Decode(Encode(m)) == m
  {
    match m
    case Push(a) => assert Encode(m) % 4 == 1;
    case Pop(a) => assert Encode(m) % 4 == 0;
    case Switch(q) => assert Encode(m) % 4 == 2;
  }

  /** No other encoding will do, except that a return may also be tagged 3. */
  lemma EncodeDecode(w: nat)
    ensures Encode(Decode(w)) == w <==> w % 4 != 3
  {
    assert w == 4 * (w / 4) + w % 4;
  }

  /** The words the filter sends as it is written: the tags are combined with a bitwise and, which in
      64 bits leaves nothing of a call or a switch. */
  function SentAsWritten(m: Msg): nat {
    match m
    case Push(a) => 4 * a % 0x1_0000_0000_0000_0000 % 2
    case Pop(a) => 4 * a % 0x1_0000_0000_0000_0000
    case Switch(q) => 2 * (4 * q % 0x1_0000_0000_0000_0000 / 2 % 2)
  }

  /** As written, only returns to addresses of at most 62 bits get through. */
  lemma AsWritten(m: Msg)
    ensures Decode(SentAsWritten(m)) == m <==> m.Pop? && m.addr < 0x4000_0000_0000_0000
  {
    match m
    case Push(a) => ZeroWord(a);
    case Pop(a) =>
      var low := a % 0x4000_0000_0000_0000;
      assert 4 * a == 0x1_0000_0000_0000_0000 * (a / 0x4000_0000_0000_0000) + 4 * low;
      assert SentAsWritten(m) == 4 * low;
      DecodeEncode(Pop(low));
    case Switch(q) =>
      var high := 4 * q / 0x1_0000_0000_0000_0000;
      assert 4 * q % 0x1_0000_0000_0000_0000 / 2 == 2 * (q - 0x4000_0000_0000_0000 * high);
  }

  /** The words that go out in place of the words meant. */
  function Written(words: seq<nat>): seq<nat> {
    if words == [] then [] else Written(words[..|words| - 1]) + [SentAsWritten(Decode(words[|words| - 1]))]
  }

  lemma WrittenMore(words: seq<nat>, m: Msg)
    ensures Written(words + [Encode(m)]) == Written(words) + [SentAsWritten(m)]
  {
    DecodeEncode(m);
    hide Decode, Encode, SentAsWritten;
    assert (words + [Encode(m)])[..|words|] == words;
  }

  // ------------------------------------------------------------ one sequential shadow stack

  datatype Event = Call(addr: nat) | Ret(addr: nat)

  /** One comparison of the address on the stack with the address returned to. */
  datatype Cmp = Cmp(expected: nat, actual: nat)

  /** The return does not match its call. */
  predicate Wrong(c: Cmp) {
    c.expected != c.actual
  }

  /** A shadow stack, top first, and the comparisons made so far. */
  datatype Tape = Tape(stack: seq<nat>, log: seq<Cmp>)

  function Pushed(t: Tape, a: nat): Tape {
    t.(stack := [a] + t.stack)
  }

  /** An empty stack reads as 0. */
  function Popped(t: Tape, a: nat): Tape {
    if t.stack == [] then t.(log := t.log + [Cmp(0, a)])
    else Tape(t.stack[1..], t.log + [Cmp(t.stack[0], a)])
  }

  function Sequential(t: Tape, events: seq<Event>): Tape {
    if events == [] then t
    else
      var t' := Sequential(t, events[..|events| - 1]);
      match events[|events| - 1]
      case Call(a) => Pushed(t', a)
      case Ret(a) => Popped(t', a)
  }

  /** Calls and returns that nest, with no return left over and no call. */
  ghost predicate Nested(events: seq<Event>)
    decreases |events|
  {
    || events == []
    || (exists k :: 0 < k < |events| && events[0].Call? && events[k].Ret?
          && Nested(events[1..k]) && Nested(events[k + 1..]))
  }

  /** What a shadow stack is for: a return is compared with the call it belongs to, whatever nests between them, and
      the stack is as before. */
  lemma {:induction false} ReturnMeetsCall(t: Tape, a: nat, body: seq<Event>, b: nat)
    requires Nested(body)
    ensures var done := Sequential(Pushed(t, a), body);
            && done.stack == [a] + t.stack
            && Sequential(t, [Call(a)] + body + [Ret(b)]) == Tape(t.stack, done.log + [Cmp(a, b)])
    decreases |body| + 1
  {
    NestedKeeps(Pushed(t, a), body);
    EventAlone(t, Call(a));
    EventAlone(Sequential(Pushed(t, a), body), Ret(b));
    hide Sequential, Nested;
    SequentialAppend(t, [Call(a)], body);
    SequentialAppend(t, [Call(a)] + body, [Ret(b)]);
    assert ([a] + t.stack)[1..] == t.stack;
  }

  lemma EventAlone(t: Tape, e: Event)
    ensures Sequential(t, [e]) == if e.Call? then Pushed(t, e.addr) else Popped(t, e.addr)
  {
    assert [e][..0] == [];
  }

  lemma NestedSplit(events: seq<Event>) returns (a: nat, body: seq<Event>, b: nat, rest: seq<Event>)
    requires Nested(events) && events != []
    ensures events == [Call(a)] + body + [Ret(b)] + rest && Nested(body) && Nested(rest)
  {
    var k :| 0 < k < |events| && events[0].Call? && events[k].Ret? && Nested(events[1..k]) && Nested(events[k + 1..]);
    a, body, b, rest := events[0].addr, events[1..k], events[k].addr, events[k + 1..];
  }

  lemma {:induction false} NestedKeeps(t: Tape, events: seq<Event>)
    requires Nested(events)
    ensures Sequential(t, events).stack == t.stack && t.log <= Sequential(t, events).log
    decreases |events|
  {
    if events != [] {
      var a, body, b, rest := NestedSplit(events);
      hide Sequential, Nested;
      var whole := [Call(a)] + body + [Ret(b)];
      NestedKeeps(Pushed(t, a), body);
      ReturnMeetsCall(t, a, body, b);
      NestedKeeps(Sequential(t, whole), rest);
      SequentialAppend(t, whole, rest);
      LogGrows(t.log, Sequential(Pushed(t, a), body).log, Cmp(a, b), Sequential(t, events).log);
    }
  }

  lemma LogGrows(a: seq<Cmp>, b: seq<Cmp>, x: Cmp, c: seq<Cmp>)
    requires a <= b && b + [x] <= c
    ensures a <= c
  {
    assert b <= c;
  }

  /** Replaying calls and returns from message words. */
  function Played(t: Tape, w: nat): Tape {
    match Decode(w)
    case Push(a) => Pushed(t, a)
    case Pop(a) => Popped(t, a)
    case Switch(_) => t
  }

  function Replay(t: Tape, words: seq<nat>): Tape {
    if words == [] then t else Played(Replay(t, words[..|words| - 1]), words[|words| - 1])
  }

  // ------------------------------------------------------------ the filter

  /** Of a call or a switch nothing is left; of the address of a return, 62 bits. */
  lemma WordOut(m: Msg)
    ensures SentAsWritten(m) == if m.Pop? then 4 * m.addr % 0x1_0000_0000_0000_0000 else 0
  {
    match m
    case Push(a) => ZeroWord(a);
    case Pop(a) =>
    case Switch(q) => SwitchZero(q);
  }

  lemma SwitchZero(q: nat)
    ensures SentAsWritten(Switch(q)) == 0
  {
    var high := 4 * q / 0x1_0000_0000_0000_0000;
    assert 4 * q % 0x1_0000_0000_0000_0000 / 2 == 2 * (q - 0x4000_0000_0000_0000 * high);
  }

  /** The filter's state: its deque, front first, the words it sent and the comparisons it made. */
  datatype Local = Local(shadow: seq<nat>, sent: seq<nat>, log: seq<Cmp>)

  const IDLE: Local := Local([], [], [])

  function Filtered(f: Local, e: Event): Local {
    match e
    case Call(a) => f.(shadow := [a] + f.shadow)
    case Ret(a) =>
      if f.shadow == [] then f.(sent := f.sent + [Encode(Pop(a))])
      else f.(shadow := f.shadow[1..], log := f.log + [Cmp(f.shadow[0], a)])
  }

  /** The calls left over, oldest first. */
  function Leftover(shadow: seq<nat>): seq<nat> {
    if shadow == [] then [] else [Encode(Push(shadow[|shadow| - 1]))] + Leftover(shadow[..|shadow| - 1])
  }

  /** The words for the calls on a stack, from the oldest to the newest. */
  function Calls(shadow: seq<nat>): seq<nat> {
    seq(|shadow|, k requires 0 <= k < |shadow| => 4 * shadow[|shadow| - 1 - k] + 1)
  }

  lemma {:induction false} LeftoverCallsAre(shadow: seq<nat>)
    ensures Leftover(shadow) == Calls(shadow)
  {
    if shadow != [] {
      var n := |shadow| - 1;
      LeftoverCallsAre(shadow[..n]);
      Tags(shadow[n]);
      hide Encode;
      assert Calls(shadow) == [4 * shadow[n] + 1] + Calls(shadow[..n]);
    }
  }

  function Flushed(f: Local, next: nat): Local {
    Local([], f.sent + Leftover(f.shadow) + [Encode(Switch(next))], f.log)
  }

  function FilteredAll(f: Local, events: seq<Event>): Local {
    if events == [] then f else Filtered(FilteredAll(f, events[..|events| - 1]), events[|events| - 1])
  }

  class Filter {
    var shadow: seq<nat>
    var sent: seq<nat>
    var log: seq<Cmp>

    // the words as the aggregator would have to see them
    ghost var meant: seq<nat>

    ghost predicate Valid()
      reads this
    {
      sent == Written(meant)
    }

    ghost function State(): Local
      reads this
    {
      Local(shadow, meant, log)
    }

    constructor ()
      ensures Valid() && State() == IDLE
    {
      shadow, sent, log, meant := [], [], [], [];
    }

    /** `addr << 2` with its tag, as it is written. */
    method Send(m: Msg)
      requires Valid()
      modifies this`sent, this`meant
      ensures Valid() && meant == old(meant) + [Encode(m)]
      ensures sent == old(sent) + [if m.Pop? then 4 * m.addr % 0x1_0000_0000_0000_0000 else 0]
    {
      WrittenMore(meant, m);
      WordOut(m);
      sent := sent + [SentAsWritten(m)];
      meant := meant + [Encode(m)];
    }

    /** One entry of the hardware queue: type 3 is a call, 4 a return, anything else the end of the
        core's part of the trace, with the core that has the next part. */
    method Receive(kind: int, addr: nat)
      requires Valid()
      modifies this
      ensures Valid()
      ensures kind == 3 ==> shadow == [addr] + old(shadow) && sent == old(sent) && log == old(log)
      ensures kind == 4 && old(shadow) == [] ==>
                shadow == [] && log == old(log) && sent == old(sent) + [4 * addr % 0x1_0000_0000_0000_0000]
      ensures kind == 4 && old(shadow) != [] ==>
                shadow == old(shadow)[1..] && log == old(log) + [Cmp(old(shadow)[0], addr)] && sent == old(sent)
      ensures kind != 3 && kind != 4 ==>
                shadow == [] && log == old(log) && meant == old(meant) + Calls(old(shadow)) + [4 * addr + 2]
      ensures kind != 3 && kind != 4 ==> sent == old(sent) + seq(|old(shadow)| + 1, _ => 0)
      ensures kind == 3 ==> State() == Filtered(old(State()), Call(addr))
      ensures kind == 4 ==> State() == Filtered(old(State()), Ret(addr))
      ensures kind != 3 && kind != 4 ==> State() == Flushed(old(State()), addr)
    {
      if kind == 3 {
        shadow := [addr] + shadow;
      } else if kind == 4 {
        if shadow == [] {
          Send(Pop(addr));
        } else {
          var comp := shadow[0];
          shadow := shadow[1..];
          log := log + [Cmp(comp, addr)];
        }
      } else {
        while shadow != []
          invariant Valid() && meant + Leftover(shadow) == old(meant) + Leftover(old(shadow)) && log == old(log)
          invariant |shadow| <= |old(shadow)| && sent == old(sent) + seq(|old(shadow)| - |shadow|, _ => 0)
          decreases |shadow|
        {
          var data := shadow[|shadow| - 1];
          assert meant + Leftover(shadow) == meant + [Encode(Push(data))] + Leftover(shadow[..|shadow| - 1]);
          shadow := shadow[..|shadow| - 1];
          Send(Push(data));
        }
        assert Leftover(shadow) == [] && meant + [] == meant;
        LeftoverCallsAre(old(shadow));
        Tags(addr);
        Send(Switch(addr));
      }
    }
  }

  // ------------------------------------------------------------ the aggregator as a function

  datatype Merge = Merge(tape: Tape, target: nat, queues: seq<seq<nat>>)

  /** A word that switches to a core switches to one of the twelve. */
  predicate Proper(w: nat) {
    Decode(w).Switch? ==> Decode(w).target < CORES
  }

  predicate Sane(m: Merge) {
    && |m.queues| == CORES && m.target < CORES
    && (forall c, k :: 0 <= c < CORES && 0 <= k < |m.queues[c]| ==> Proper(m.queues[c][k]))
  }

  function Queued(queues: seq<seq<nat>>): nat {
    if queues == [] then 0 else |queues[0]| + Queued(queues[1..])
  }

  /** The effect of one word of the current core. */
  function Taken(m: Merge, w: nat): Merge {
    match Decode(w)
    case Switch(q) => m.(target := q)
    case _ => m.(tape := Played(m.tape, w))
  }

  /** One word of the current core leaves its queue and takes effect. */
  function Consumed(m: Merge): (r: Merge)
    requires Sane(m) && m.queues[m.target] != []
    ensures Sane(r) && Queued(r.queues) < Queued(m.queues)
  {
    var q := m.queues[m.target];
    assert Proper(q[0]);
    QueuedTail(m.queues, m.target);
    Taken(m.(queues := m.queues[m.target := q[1..]]), q[0])
  }

  lemma QueuedTail(queues: seq<seq<nat>>, c: nat)
    requires c < |queues| && queues[c] != []
    ensures Queued(queues[c := queues[c][1..]]) < Queued(queues)
  {
    if c > 0 {
      QueuedTail(queues[1..], c - 1);
      assert queues[c := queues[c][1..]][1..] == queues[1..][c - 1 := queues[c][1..]];
    }
  }

  /** Consume as long as the current core has words. */
  function Greedy(m: Merge): (r: Merge)
    requires Sane(m)
    ensures Sane(r) && r.queues[r.target] == []
    decreases Queued(m.queues)
  {
    if m.queues[m.target] == [] then m else Greedy(Consumed(m))
  }

  function Enqueued(m: Merge, from: nat, w: nat): (r: Merge)
    requires Sane(m) && from < CORES && Proper(w)
    ensures Sane(r)
  {
    m.(queues := m.queues[from := m.queues[from] + [w]])
  }

  /** What is on top of the stack; an empty one reads as 0. */
  function Top(t: Tape): nat {
    if t.stack == [] then 0 else t.stack[0]
  }

  /** The word is a return that does not match. */
  predicate Mismatch(t: Tape, w: nat) {
    Decode(w).Pop? && Wrong(Cmp(Top(t), Decode(w).addr))
  }

  /** The state after a word has arrived, if the queue of the current core was empty. */
  function Step(m: Merge, from: nat, w: nat): (r: Merge)
    requires Sane(m) && from < CORES && Proper(w)
    ensures Sane(r) && r.queues[r.target] == []
  {
    Greedy(Enqueued(m, from, w))
  }

  predicate Deliverable(arrivals: seq<(nat, nat)>) {
    forall i :: 0 <= i < |arrivals| ==> arrivals[i].0 < CORES && Proper(arrivals[i].1)
  }

  /** The program stops at the first arrival that is a return of the current core and does not match. */
  predicate Stops(m: Merge, arrivals: seq<(nat, nat)>)
    requires Sane(m) && Deliverable(arrivals)
    decreases |arrivals|
  {
    arrivals != [] &&
    ((arrivals[0].0 == m.target && Mismatch(m.tape, arrivals[0].1)) ||
     Stops(Step(m, arrivals[0].0, arrivals[0].1), arrivals[1..]))
  }

  // ------------------------------------------------------------ the aggregator

  class Aggregator {
    var shadow: seq<nat>
    var currentTarget: nat
    const queues: array<seq<nat>>
    var log: seq<Cmp>
    // the assertion of the main loop has failed
    var stopped: bool

    function State(): Merge
      reads this, queues
    {
      Merge(Tape(shadow, log), currentTarget, queues[..])
    }

    constructor ()
      ensures fresh(queues) && State() == Merge(Tape([], []), 0, seq(CORES, c => [])) && !stopped
    {
      shadow, currentTarget, log, stopped := [], 0, [], false;
      queues := new seq<nat>[CORES](c => []);
    }

    /** A return: the address on the stack, or 0 if there is none, is compared with the one returned to. */
    method Check(addr: nat) returns (same: bool)
      modifies this`shadow, this`log
      ensures Tape(shadow, log) == Popped(Tape(old(shadow), old(log)), addr)
      ensures if old(shadow) == [] then shadow == [] && log == old(log) + [Cmp(0, addr)]
              else shadow == old(shadow)[1..] && log == old(log) + [Cmp(old(shadow)[0], addr)]
      ensures log != [] && (same <==> !Wrong(log[|log| - 1])) && log[|log| - 1] ==
              Cmp(Top(Tape(old(shadow), old(log))), addr)
    {
      var comp := 0;
      if |shadow| > 0 {
        comp := shadow[0];
        shadow := shadow[1..];
      }
      log := log + [Cmp(comp, addr)];
      same := comp == addr;
    }

    /** `clearQueue`: replay what is queued for a core until its queue is empty or the token moves on. */
    method ClearQueue(queue: nat)
      requires queue < CORES && Sane(State().(target := queue))
      modifies this`shadow, this`currentTarget, this`log, queues
      ensures Sane(State()) && State() == Greedy(old(State()).(target := queue)) && queues[currentTarget] == []
      decreases Queued(queues[..])
    {
      currentTarget := queue;
      while queues[queue] != []
        invariant currentTarget == queue && Sane(State())
        invariant Greedy(State()) == Greedy(old(State()).(target := queue))
        invariant Queued(queues[..]) <= Queued(old(queues[..]))
        decreases Queued(queues[..])
      {
        ghost var before := State();
        ghost var after := Consumed(before);
        var typeaddr := queues[queue][0];
        assert Proper(before.queues[queue][0]);
        queues[queue] := queues[queue][1..];
        assert queues[..] == after.queues;
        match Decode(typeaddr)
        case Switch(addr) =>
          ClearQueue(addr);
          return;
        case Push(addr) => shadow := [addr] + shadow;
        case Pop(addr) => var _ := Check(addr);
        assert State() == after;
      }
    }

    /** One turn of the main loop: a word arrives from a core.  A return that does not match stops the program if
        it is looked at here; those looked at in `ClearQueue` are only printed. */
    method Arrive(from: nat, typeaddr: nat)
      requires Sane(State()) && State().queues[currentTarget] == [] && from < CORES && Proper(typeaddr) && !stopped
      modifies this, queues
      ensures Sane(State()) && queues[currentTarget] == []
      ensures State() == Greedy(Enqueued(old(State()), from, typeaddr))
      ensures from != old(currentTarget) ==>
                && shadow == old(shadow) && log == old(log) && currentTarget == old(currentTarget)
                && queues[..] == old(queues[..])[from := old(queues[..])[from] + [typeaddr]]
      ensures from == old(currentTarget) && typeaddr % 4 != 2 ==>
                currentTarget == old(currentTarget) && queues[..] == old(queues[..])
      ensures from == old(currentTarget) && typeaddr % 4 == 1 ==>
                shadow == [typeaddr / 4] + old(shadow) && log == old(log)
      ensures from == old(currentTarget) && typeaddr % 4 == 2 ==>
                State() == Greedy(old(State()).(target := typeaddr / 4))
      ensures from == old(currentTarget) && typeaddr % 4 == 2 && old(queues[..])[typeaddr / 4] == [] ==>
                && currentTarget == typeaddr / 4 && shadow == old(shadow) && log == old(log)
                && queues[..] == old(queues[..])
      ensures from == old(currentTarget) && (typeaddr % 4 == 0 || typeaddr % 4 == 3) ==>
                if old(shadow) == [] then shadow == [] && log == old(log) + [Cmp(0, typeaddr / 4)]
                else shadow == old(shadow)[1..] && log == old(log) + [Cmp(old(shadow)[0], typeaddr / 4)]
      ensures stopped <==>
                && from == old(currentTarget) && (typeaddr % 4 == 0 || typeaddr % 4 == 3)
                && typeaddr / 4 != if old(shadow) == [] then 0 else old(shadow)[0]
      ensures stopped <==> from == old(currentTarget) && Mismatch(Tape(old(shadow), old(log)), typeaddr)
      ensures stopped ==> log != [] && Wrong(log[|log| - 1])
    {
      ghost var all := Enqueued(State(), from, typeaddr);
      if from == currentTarget {
        assert queues[from] == [] && all.queues[from] == [typeaddr] && [typeaddr][1..] == queues[from];
        ghost var first := Consumed(all);
        assert first.queues == all.queues[from := []];
        assert first.queues == queues[..] && first.queues[from] == [];
        match Decode(typeaddr)
        case Switch(addr) => ClearQueue(addr);
        case Push(addr) => shadow := [addr] + shadow;
        case Pop(addr) =>
          var same := Check(addr);
          stopped := !same;
      } else {
        queues[from] := queues[from] + [typeaddr];
        assert State() == all;
      }
    }

    /** The main loop over any finite sequence of arrivals: it goes through all of them, or stops at a comparison
        that failed. */
    method Run(arrivals: seq<(nat, nat)>) returns (n: nat)
      requires Sane(State()) && State().queues[currentTarget] == [] && !stopped
      requires forall i :: 0 <= i < |arrivals| ==> arrivals[i].0 < CORES && Proper(arrivals[i].1)
      modifies this, queues
      ensures n <= |arrivals| && Sane(State()) && queues[currentTarget] == []
      ensures State() == Greedy(Fed(old(State()), arrivals[..n]))
      ensures if stopped then log != [] && Wrong(log[|log| - 1]) else n == |arrivals|
      ensures stopped <==> Stops(old(State()), arrivals)
    {
      hide Stops, Step, Greedy, Fed, Proper, Mismatch, Decode;
      ghost var start := State();
      n := 0;
      assert arrivals[0..] == arrivals && arrivals[..0] == [];
      NothingFed(start);
      while n < |arrivals| && !stopped
        invariant 0 <= n <= |arrivals| && Sane(State()) && queues[currentTarget] == []
        invariant State() == Greedy(Fed(start, arrivals[..n]))
        invariant stopped ==> log != [] && Wrong(log[|log| - 1])
        invariant Stops(start, arrivals) <==> stopped || Stops(State(), arrivals[n..])
        decreases |arrivals| - n
      {
        FedNext(start, arrivals, n);
        StopsNext(State(), arrivals, n);
        Arrive(arrivals[n].0, arrivals[n].1);
        n := n + 1;
      }
      if n == |arrivals| { NothingStops(State(), arrivals); }
    }
  }

  lemma NothingFed(m: Merge)
    requires Sane(m) && m.queues[m.target] == []
    ensures Greedy(Fed(m, [])) == m
  {
  }

  lemma FedNext(m: Merge, arrivals: seq<(nat, nat)>, n: nat)
    requires Sane(m) && n < |arrivals| && Deliverable(arrivals)
    ensures Greedy(Fed(m, arrivals[..n + 1])) == Greedy(Enqueued(Greedy(Fed(m, arrivals[..n])), arrivals[n].0,
            arrivals[n].1))
  {
    hide Greedy, Proper, Sane;
    assert arrivals[..n + 1][..n] == arrivals[..n];
    GreedyFirst(Fed(m, arrivals[..n]), arrivals[n].0, arrivals[n].1);
  }

  lemma StopsNext(m: Merge, arrivals: seq<(nat, nat)>, n: nat)
    requires Sane(m) && n < |arrivals| && Deliverable(arrivals)
    ensures Stops(m, arrivals[n..]) <==>
            (arrivals[n].0 == m.target && Mismatch(m.tape, arrivals[n].1)) ||
            Stops(Greedy(Enqueued(m, arrivals[n].0, arrivals[n].1)), arrivals[n + 1..])
  {
    hide Greedy, Mismatch, Decode;
    assert arrivals[n..][0] == arrivals[n] && arrivals[n..][1..] == arrivals[n + 1..];
  }

  lemma NothingStops(m: Merge, arrivals: seq<(nat, nat)>)
    requires Sane(m) && Deliverable(arrivals)
    ensures !Stops(m, arrivals[|arrivals|..])
  {
  }

  /** All arrivals put into the queues. */
  function Fed(m: Merge, arrivals: seq<(nat, nat)>): (r: Merge)
    requires Sane(m) && forall i :: 0 <= i < |arrivals| ==> arrivals[i].0 < CORES && Proper(arrivals[i].1)
    ensures Sane(r)
  {
    if arrivals == [] then m
    else var n := |arrivals| - 1; Enqueued(Fed(m, arrivals[..n]), arrivals[n].0, arrivals[n].1)
  }

  // ------------------------------------------------------------ confluence

  /** It makes no difference whether a word arrives before or after the queues were drained. */
  lemma {:induction false} GreedyFirst(m: Merge, from: nat, w: nat)
    requires Sane(m) && from < CORES && Proper(w)
    ensures Greedy(Enqueued(Greedy(m), from, w)) == Greedy(Enqueued(m, from, w))
    decreases Queued(m.queues)
  {
    if m.queues[m.target] != [] {
      var late := Enqueued(m, from, w);
      assert Consumed(late) == Enqueued(Consumed(m), from, w) by {
        var q := m.queues[m.target];
        assert late.queues[m.target][0] == q[0] && (q + [w])[1..] == q[1..] + [w];
        assert late.queues[m.target := late.queues[m.target][1..]] ==
               Enqueued(m.(queues := m.queues[m.target := q[1..]]), from, w).queues;
      }
      GreedyFirst(Consumed(m), from, w);
    }
  }

  /** The words that came from core c. */
  function From(arrivals: seq<(nat, nat)>, c: nat): seq<nat> {
    if arrivals == [] then []
    else
      var n := |arrivals| - 1;
      From(arrivals[..n], c) + if arrivals[n].0 == c then [arrivals[n].1] else []
  }

  lemma {:induction false} FedQueues(m: Merge, arrivals: seq<(nat, nat)>, c: nat)
    requires Sane(m) && c < CORES && forall i :: 0 <= i < |arrivals| ==> arrivals[i].0 < CORES && Proper(arrivals[i].1)
    ensures Fed(m, arrivals).queues[c] == m.queues[c] + From(arrivals, c)
    ensures Fed(m, arrivals) == m.(queues := Fed(m, arrivals).queues)
  {
    if arrivals != [] {
      FedQueues(m, arrivals[..|arrivals| - 1], c);
    }
  }

  /** Two interleavings of the same per-core streams leave the aggregator in the same state: the same
      stack, the same comparisons in the same order, the same core, the same words still queued. */
  lemma Confluence(m: Merge, a: seq<(nat, nat)>, b: seq<(nat, nat)>)
    requires Sane(m)
    requires forall i :: 0 <= i < |a| ==> a[i].0 < CORES && Proper(a[i].1)
    requires forall i :: 0 <= i < |b| ==> b[i].0 < CORES && Proper(b[i].1)
    requires forall c :: 0 <= c < CORES ==> From(a, c) == From(b, c)
    ensures Greedy(Fed(m, a)) == Greedy(Fed(m, b))
  {
    forall c | 0 <= c < CORES ensures Fed(m, a).queues[c] == Fed(m, b).queues[c] {
      FedQueues(m, a, c);
      FedQueues(m, b, c);
    }
    assert Fed(m, a).queues == Fed(m, b).queues;
    FedQueues(m, a, 0);
    FedQueues(m, b, 0);
  }

  // ------------------------------------------------------------ one part of the trace

  lemma ReplayOne(t: Tape, words: seq<nat>, w: nat)
    ensures Replay(t, words + [w]) == Played(Replay(t, words), w)
  {
    assert (words + [w])[..|words|] == words;
  }

  lemma ReplayWord(t: Tape, w: nat)
    ensures Replay(t, [w]) == Played(t, w)
  {
    assert [] + [w] == [w];
    ReplayOne(t, [], w);
  }

  lemma {:induction false} ReplayAppend(t: Tape, u: seq<nat>, w: seq<nat>)
    ensures Replay(t, u + w) == Replay(Replay(t, u), w)
  {
    if w == [] {
      assert u + w == u;
    } else {
      var n := |w| - 1;
      ReplayAppend(t, u, w[..n]);
      assert (u + w)[..|u + w| - 1] == u + w[..n];
    }
  }

  predicate NoSwitch(words: seq<nat>) {
    forall k :: 0 <= k < |words| ==> !Decode(words[k]).Switch?
  }

  /** While a filter works on its part, the sequential stack `whole` is the filter's stack on top of what
      the aggregator has after the words sent so far, and between them they make the same comparisons. */
  ghost predicate Agree(t: Tape, f: Local, whole: Tape) {
    && NoSwitch(f.sent)
    && whole.stack == f.shadow + Replay(t, f.sent).stack
    && multiset(whole.log) == multiset(Replay(t, f.sent).log) + multiset(f.log)
  }

  lemma AgreeForward(t: Tape, f: Local, whole: Tape, a: nat)
    requires Agree(t, f, whole) && f.shadow == []
    ensures Agree(t, Filtered(f, Ret(a)), Popped(whole, a))
  {
    DecodeEncode(Pop(a));
    hide Decode, Encode;
    var w := Encode(Pop(a));
    ReplayOne(t, f.sent, w);
    assert [] + Replay(t, f.sent).stack == Replay(t, f.sent).stack;
    assert [] + Replay(t, f.sent + [w]).stack == Replay(t, f.sent + [w]).stack;
  }

  lemma AgreeMatch(t: Tape, f: Local, whole: Tape, a: nat)
    requires Agree(t, f, whole) && f.shadow != []
    ensures Agree(t, Filtered(f, Ret(a)), Popped(whole, a))
  {
    hide Decode, Encode, Replay;
    assert whole.stack[1..] == f.shadow[1..] + Replay(t, f.sent).stack;
  }

  lemma AgreeCall(t: Tape, f: Local, whole: Tape, a: nat)
    requires Agree(t, f, whole)
    ensures Agree(t, Filtered(f, Call(a)), Pushed(whole, a))
  {
    hide Decode, Encode, Replay;
    assert [a] + (f.shadow + Replay(t, f.sent).stack) == [a] + f.shadow + Replay(t, f.sent).stack;
  }

  lemma {:induction false} FilterAgrees(t: Tape, events: seq<Event>)
    ensures Agree(t, FilteredAll(IDLE, events), Sequential(t, events))
  {
    if events == [] {
      assert [] + t.stack == t.stack;
    } else {
      hide Filtered, Agree, Pushed, Popped;
      var n := |events| - 1;
      FilterAgrees(t, events[..n]);
      var f, whole := FilteredAll(IDLE, events[..n]), Sequential(t, events[..n]);
      match events[n]
      case Call(a) => AgreeCall(t, f, whole, a);
      case Ret(a) => if f.shadow == [] { AgreeForward(t, f, whole, a); } else { AgreeMatch(t, f, whole, a); }
    }
  }

  lemma CallReplay(t: Tape, a: nat)
    ensures Replay(t, [Encode(Push(a))]) == Pushed(t, a)
  {
    DecodeEncode(Push(a));
    hide Decode, Encode, Replay;
    ReplayWord(t, Encode(Push(a)));
  }

  lemma NoReplay(t: Tape)
    ensures Replay(t, []) == t && Leftover([]) == []
  {
  }

  lemma {:induction false} LeftoverReplay(t: Tape, shadow: seq<nat>)
    ensures Replay(t, Leftover(shadow)) == t.(stack := shadow + t.stack)
    decreases |shadow|
  {
    hide Encode, Replay;
    if shadow == [] {
      NoReplay(t);
      assert shadow + t.stack == t.stack;
    } else {
      var n := |shadow| - 1;
      var a, rest := shadow[n], shadow[..n];
      assert Leftover(shadow) == [Encode(Push(a))] + Leftover(rest);
      hide Leftover;
      ReplayAppend(t, [Encode(Push(a))], Leftover(rest));
      CallReplay(t, a);
      LeftoverReplay(Pushed(t, a), rest);
      assert rest + ([a] + t.stack) == shadow + t.stack;
    }
  }

  lemma {:induction false} LeftoverCalls(shadow: seq<nat>)
    ensures NoSwitch(Leftover(shadow))
  {
    if shadow != [] {
      var n := |shadow| - 1;
      DecodeEncode(Push(shadow[n]));
      hide Decode, Encode;
      LeftoverCalls(shadow[..n]);
    }
  }

  /** The words for one part, without the switch at its end. */
  function Part(events: seq<Event>): seq<nat> {
    var f := FilteredAll(IDLE, events);
    f.sent + Leftover(f.shadow)
  }

  lemma PartAgrees(t: Tape, events: seq<Event>)
    ensures NoSwitch(Part(events)) && Replay(t, Part(events)).stack == Sequential(t, events).stack
    ensures multiset(Sequential(t, events).log) == multiset(Replay(t, Part(events)).log) + multiset(FilteredAll(IDLE,
            events).log)
  {
    var f := FilteredAll(IDLE, events);
    FilterAgrees(t, events);
    ReplayAppend(t, f.sent, Leftover(f.shadow));
    LeftoverReplay(Replay(t, f.sent), f.shadow);
    LeftoverCalls(f.shadow);
    hide Replay, Decode, Leftover, Sequential, FilteredAll;
  }

  // ------------------------------------------------------------ the filter as written

  /** Every word that is sent as written is read as a return. */
  predicate AllPops(words: seq<nat>) {
    forall k :: 0 <= k < |words| ==> Decode(words[k]).Pop?
  }

  lemma SentIsPop(m: Msg)
    ensures Decode(SentAsWritten(m)).Pop?
  {
    match m
    case Push(a) => ZeroWord(a);
    case Pop(a) =>
      var high := 4 * a / 0x1_0000_0000_0000_0000;
      assert 4 * a % 0x1_0000_0000_0000_0000 == 4 * (a - 0x4000_0000_0000_0000 * high);
    case Switch(q) =>
      var high := 4 * q / 0x1_0000_0000_0000_0000;
      assert 4 * q % 0x1_0000_0000_0000_0000 / 2 == 2 * (q - 0x4000_0000_0000_0000 * high);
  }

  lemma ZeroWord(a: nat)
    ensures SentAsWritten(Push(a)) == 0
  {
    var high := 4 * a / 0x1_0000_0000_0000_0000;
    assert 4 * a % 0x1_0000_0000_0000_0000 == 2 * (2 * a - 0x8000_0000_0000_0000 * high);
  }

  lemma {:induction false} WrittenPops(words: seq<nat>)
    ensures AllPops(Written(words)) && |Written(words)| == |words|
  {
    hide Decode, SentAsWritten;
    if words != [] {
      WrittenPops(words[..|words| - 1]);
      SentIsPop(Decode(words[|words| - 1]));
    }
  }

  /** Each return takes one address off the stack, as long as there are any. */
  lemma {:induction false} PopsOnly(t: Tape, words: seq<nat>)
    requires AllPops(words)
    ensures |Replay(t, words).stack| == if |t.stack| <= |words| then 0 else |t.stack| - |words|
  {
    if words != [] {
      PopsOnly(t, words[..|words| - 1]);
    }
  }

  /** Up to the end of its part, the filter means to send returns only. */
  lemma {:induction false} SendsPops(events: seq<Event>)
    ensures AllPops(FilteredAll(IDLE, events).sent)
  {
    if events != [] {
      var n := |events| - 1;
      SendsPops(events[..n]);
      if events[n].Ret? { DecodeEncode(Pop(events[n].addr)); }
      hide Decode, Encode;
    }
  }

  lemma {:induction false} LeftoverSize(shadow: seq<nat>)
    ensures |Leftover(shadow)| == |shadow|
  {
    if shadow != [] { LeftoverSize(shadow[..|shadow| - 1]); }
  }

  /** Each return is one comparison, with the address it returns to. */
  lemma {:induction false} PopsLog(t: Tape, words: seq<nat>)
    requires AllPops(words)
    ensures var log := Replay(t, words).log;
            && |log| == |t.log| + |words| && log[..|t.log|] == t.log
            && (forall k :: 0 <= k < |words| ==> log[|t.log| + k].actual == words[k] / 4)
  {
    if words != [] {
      var n := |words| - 1;
      PopsLog(t, words[..n]);
      assert words[n] == words[..n + 1][n];
    }
  }

  /** As written, a part with the switch at its end leaves the sequential stack behind exactly if that is empty:
      neither calls nor switches get through, all of them pop.  It never makes the sequential comparisons, since
      at least the word of the switch is compared as well. */
  lemma AsWrittenPart(t: Tape, events: seq<Event>, next: nat)
    ensures var got, whole := Replay(t, Written(Part(events) + [Encode(Switch(next))])), Sequential(t, events);
            && (got.stack == whole.stack <==> whole.stack == [])
            && multiset(whole.log) != multiset(got.log) + multiset(FilteredAll(IDLE, events).log)
  {
    var f := FilteredAll(IDLE, events);
    var words := Part(events) + [Encode(Switch(next))];
    FilterAgrees(t, events);
    SendsPops(events);
    PopsOnly(t, f.sent);
    LeftoverSize(f.shadow);
    WrittenPops(words);
    PopsOnly(t, Written(words));
    PopsLog(t, f.sent);
    PopsLog(t, Written(words));
    hide Replay, Written, Decode, Encode, Sequential, Leftover, FilteredAll;
    var got, meant, whole := Replay(t, Written(words)), Replay(t, f.sent), Sequential(t, events);
    assert |words| == |f.sent| + |f.shadow| + 1;
    assert |whole.stack| == |f.shadow| + |meant.stack|;
    assert |multiset(got.log) + multiset(f.log)| == |got.log| + |f.log| > |meant.log| + |f.log| ==
        |multiset(whole.log)|;
  }

  // ------------------------------------------------------------ the whole trace

  /** A part of the trace and the core whose filter sees it. */
  datatype Slice = Slice(core: nat, events: seq<Event>)

  function Whole(slices: seq<Slice>): seq<Event> {
    if slices == [] then [] else slices[0].events + Whole(slices[1..])
  }

  /** The core that has the part after the first one. */
  function After(slices: seq<Slice>, last: nat): nat {
    if |slices| <= 1 then last else slices[1].core
  }

  function First(slices: seq<Slice>, last: nat): nat {
    if slices == [] then last else slices[0].core
  }

  /** What core c sends: its parts, each ending with the core that comes next. */
  function Stream(slices: seq<Slice>, last: nat, c: nat): seq<nat> {
    if slices == [] then []
    else
      (if slices[0].core == c then Part(slices[0].events) + [Encode(Switch(After(slices, last)))] else [])
      + Stream(slices[1..], last, c)
  }

  /** The comparisons made in the filters. */
  function LocalLog(slices: seq<Slice>): multiset<Cmp> {
    if slices == [] then multiset{} else multiset(FilteredAll(IDLE, slices[0].events).log) + LocalLog(slices[1..])
  }

  /** The filter of core c over all its parts. */
  function FilteredSlices(f: Local, slices: seq<Slice>, last: nat, c: nat): Local
    decreases |slices|
  {
    if slices == [] then f
    else if slices[0].core != c then FilteredSlices(f, slices[1..], last, c)
    else FilteredSlices(Flushed(FilteredAll(f, slices[0].events), After(slices, last)), slices[1..], last, c)
  }

  /** What a filter does with its deque empty does not depend on what it did before. */
  lemma {:induction false} FilterFresh(f: Local, events: seq<Event>)
    requires f.shadow == []
    ensures var g := FilteredAll(IDLE, events);
            FilteredAll(f, events) == Local(g.shadow, f.sent + g.sent, f.log + g.log)
    decreases |events|
  {
    if events == [] {
      assert f.sent + [] == f.sent && f.log + [] == f.log;
    } else {
      hide Encode;
      FilterFresh(f, events[..|events| - 1]);
    }
  }

  lemma StreamSplit(slices: seq<Slice>, last: nat, c: nat)
    requires slices != []
    ensures Stream(slices, last, c) ==
            if slices[0].core == c then Part(slices[0].events) + ([Encode(Switch(After(slices,
                last)))] + Stream(slices[1..], last, c))
            else Stream(slices[1..], last, c)
  {
    hide Part, Encode, After;
    var rest := Stream(slices[1..], last, c);
    if slices[0].core == c {
      Associate(Part(slices[0].events), [Encode(Switch(After(slices, last)))], rest);
    } else {
      NothingBefore(rest);
    }
  }

  lemma Associate(a: seq<nat>, b: seq<nat>, c: seq<nat>)
    ensures a + b + c == a + (b + c)
  {
  }

  lemma NothingBefore(a: seq<nat>)
    ensures [] + a == a
  {
  }

  /** What the filter of the first part has sent at its end. */
  lemma OwnSlice(f: Local, slices: seq<Slice>, last: nat)
    requires f.shadow == [] && slices != []
    ensures var g := Flushed(FilteredAll(f, slices[0].events), After(slices, last));
            g.shadow == [] && g.sent == f.sent + (Part(slices[0].events) + [Encode(Switch(After(slices, last)))])
  {
    hide Encode, FilteredAll, Leftover;
    FilterFresh(f, slices[0].events);
  }

  /** The filters send exactly the streams. */
  lemma {:induction false} FilterStreams(f: Local, slices: seq<Slice>, last: nat, c: nat)
    requires f.shadow == []
    ensures FilteredSlices(f, slices, last, c).shadow == []
    ensures FilteredSlices(f, slices, last, c).sent == f.sent + Stream(slices, last, c)
    decreases |slices|
  {
    hide Encode, FilteredAll, Leftover, Flushed, Part, After;
    if slices == [] {
      assert f.sent + [] == f.sent;
    } else if slices[0].core != c {
      FilterStreams(f, slices[1..], last, c);
      StreamSplit(slices, last, c);
    } else {
      hide Stream;
      var g := Flushed(FilteredAll(f, slices[0].events), After(slices, last));
      OwnSlice(f, slices, last);
      FilterStreams(g, slices[1..], last, c);
      StreamSplit(slices, last, c);
      Reassoc(f.sent, Part(slices[0].events), [Encode(Switch(After(slices, last)))], Stream(slices[1..], last, c));
    }
  }

  lemma Reassoc(a: seq<nat>, b: seq<nat>, c: seq<nat>, d: seq<nat>)
    ensures a + (b + c) + d == a + (b + (c + d))
  {
  }

  lemma {:induction false} SequentialAppend(t: Tape, u: seq<Event>, w: seq<Event>)
    ensures Sequential(t, u + w) == Sequential(Sequential(t, u), w)
  {
    if w == [] {
      assert u + w == u;
    } else {
      SequentialAppend(t, u, w[..|w| - 1]);
      assert (u + w)[..|u + w| - 1] == u + w[..|w| - 1];
    }
  }

  lemma AddBoth(a: multiset<Cmp>, b: multiset<Cmp>, c: multiset<Cmp>, d: multiset<Cmp>, x: Cmp)
    requires a + b == c + d
    ensures a + multiset{x} + b == c + multiset{x} + d
  {
    assert a + multiset{x} + b == (a + b) + multiset{x};
    assert c + multiset{x} + d == (c + d) + multiset{x};
  }

  lemma CancelBoth(a: multiset<Cmp>, b: multiset<Cmp>, x: multiset<Cmp>)
    requires a + x == b + x
    ensures a == b
  {
    forall e ensures a[e] == b[e] {
      assert (a + x)[e] == (b + x)[e];
    }
  }

  lemma PoppedLog(t: Tape, a: nat)
    ensures multiset(Popped(t, a).log) == multiset(t.log) + multiset{Cmp(if t.stack == [] then 0 else t.stack[0], a)}
  {
  }

  /** The log grows independently of what it already holds. */
  lemma {:induction false} SequentialLog(s: Tape, t: Tape, events: seq<Event>)
    requires s.stack == t.stack
    ensures Sequential(s, events).stack == Sequential(t, events).stack
    ensures multiset(Sequential(s, events).log) + multiset(t.log) == multiset(Sequential(t,
            events).log) + multiset(s.log)
    decreases |events|
  {
    if events != [] {
      var n := |events| - 1;
      SequentialLog(s, t, events[..n]);
      match events[n]
      case Call(_) =>
      case Ret(a) =>
        var s', t' := Sequential(s, events[..n]), Sequential(t, events[..n]);
        PoppedLog(s', a);
        PoppedLog(t', a);
        AddBoth(multiset(s'.log), multiset(t.log), multiset(t'.log), multiset(s.log), if s'.stack == [] then Cmp(0, a)
          else Cmp(s'.stack[0], a));
    }
  }

  /** Words of the current core up to a switch are replayed one after the other. */
  lemma {:induction false} GreedyReplay(m: Merge, words: seq<nat>, more: seq<nat>)
    requires Sane(m) && m.queues[m.target] == words + more && NoSwitch(words)
    ensures Sane(m.(tape := Replay(m.tape, words), queues := m.queues[m.target := more]))
    ensures Greedy(m) == Greedy(m.(tape := Replay(m.tape, words), queues := m.queues[m.target := more]))
    decreases |words|
  {
    var q := m.queues[m.target];
    forall k | 0 <= k < |more| ensures Proper(more[k]) { assert more[k] == q[|words| + k]; }
    if words == [] {
      assert words + more == more && m.queues[m.target := more] == m.queues;
    } else {
      hide Decode;
      var w, rest := words[0], words[1..];
      assert q[0] == w && q[1..] == rest + more;
      var m' := Consumed(m);
      assert m' == m.(tape := Played(m.tape, w), queues := m.queues[m.target := q[1..]]);
      GreedyReplay(m', rest, more);
      assert m'.queues[m.target := more] == m.queues[m.target := more];
      ReplayAppend(m.tape, [w], rest);
      assert [w] + rest == words;
      ReplayWord(m.tape, w);
    }
  }

  /** The current core's first part is replayed and the token moves on. */
  lemma FirstPart(m: Merge, slices: seq<Slice>, last: nat) returns (m': Merge)
    requires Sane(m) && slices != [] && m.target == slices[0].core && After(slices, last) < CORES
    requires forall c :: 0 <= c < CORES ==> m.queues[c] == Stream(slices, last, c)
    ensures Sane(m') && Greedy(m) == Greedy(m') && m'.target == After(slices, last)
    ensures m'.tape == Replay(m.tape, Part(slices[0].events))
    ensures forall c :: 0 <= c < CORES ==> m'.queues[c] == Stream(slices[1..], last, c)
  {
    var part, next := Part(slices[0].events), After(slices, last);
    var w, rest := Encode(Switch(next)), Stream(slices[1..], last, m.target);
    PartAgrees(m.tape, slices[0].events);
    DecodeEncode(Switch(next));
    hide Decode, Encode, Part, Replay, Stream, Sequential, FilteredAll;
    forall c {:trigger Stream(slices[1..], last, c)} | 0 <= c < CORES
      ensures m.queues[c] == if c == m.target then part + ([w] + rest) else Stream(slices[1..], last, c)
    {
      StreamSplit(slices, last, c);
    }
    GreedyReplay(m, part, [w] + rest);
    var m1 := m.(tape := Replay(m.tape, part), queues := m.queues[m.target := [w] + rest]);
    assert m1.queues[m1.target] == [w] + rest && ([w] + rest)[1..] == rest;
    m' := Consumed(m1);
  }

  /** Draining the streams of a trace cut into parts rebuilds the sequential run: the same stack, and, with
      those made in the filters, the same comparisons; nothing is left in the queues. */
  lemma {:induction false} Assembled(m: Merge, slices: seq<Slice>, last: nat)
    requires Sane(m) && last < CORES && (forall i :: 0 <= i < |slices| ==> slices[i].core < CORES)
    requires m.target == First(slices, last)
    requires forall c :: 0 <= c < CORES ==> m.queues[c] == Stream(slices, last, c)
    ensures Greedy(m).target == last && (forall c :: 0 <= c < CORES ==> Greedy(m).queues[c] == [])
    ensures Greedy(m).tape.stack == Sequential(m.tape, Whole(slices)).stack
    ensures multiset(Sequential(m.tape, Whole(slices)).log) == multiset(Greedy(m).tape.log) + LocalLog(slices)
    decreases |slices|
  {
    if slices != [] {
      hide Greedy, Replay, Sequential, FilteredAll, Part, Stream, Whole, LocalLog;
      var m' := FirstPart(m, slices, last);
      Assembled(m', slices[1..], last);
      Combined(m.tape, m'.tape, Greedy(m).tape, slices);
    }
  }

  /** The comparisons of the first part and those of the rest. */
  lemma Combined(t: Tape, t': Tape, end: Tape, slices: seq<Slice>)
    requires slices != [] && t' == Replay(t, Part(slices[0].events))
    requires end.stack == Sequential(t', Whole(slices[1..])).stack
    requires multiset(Sequential(t', Whole(slices[1..])).log) == multiset(end.log) + LocalLog(slices[1..])
    ensures end.stack == Sequential(t, Whole(slices)).stack
    ensures multiset(Sequential(t, Whole(slices)).log) == multiset(end.log) + LocalLog(slices)
  {
    var events, rest := slices[0].events, Whole(slices[1..]);
    hide Replay, Sequential, FilteredAll, Part;
    SequentialAppend(t, events, rest);
    PartAgrees(t, events);
    var first, all := Sequential(t, events), Sequential(t, events + rest);
    SequentialLog(first, t', rest);
    var own, others := multiset(FilteredAll(IDLE, events).log), LocalLog(slices[1..]);
    var got, done := multiset(end.log), multiset(t'.log);
    assert (got + others) + (done + own) == (got + (own + others)) + done;
    CancelBoth(multiset(all.log), got + (own + others), done);
  }

  /** For every trace cut into parts over the cores, and every interleaving of what the cores' filters send,
      the aggregator ends with the sequential shadow stack, its queues empty, and filters and
      aggregator together have made the sequential comparisons. */
  lemma ParallelIsSequential(stack: seq<nat>, slices: seq<Slice>, last: nat, arrivals: seq<(nat, nat)>)
    requires last < CORES && First(slices, last) == 0 && (forall i :: 0 <= i < |slices| ==> slices[i].core < CORES)
    requires forall i :: 0 <= i < |arrivals| ==> arrivals[i].0 < CORES && Proper(arrivals[i].1)
    requires forall c :: 0 <= c < CORES ==> From(arrivals, c) == FilteredSlices(IDLE, slices, last, c).sent
    ensures var m := Greedy(Fed(Merge(Tape(stack, []), 0, seq(CORES, c => [])), arrivals));
            && m.target == last && (forall c :: 0 <= c < CORES ==> m.queues[c] == [])
            && m.tape.stack == Sequential(Tape(stack, []), Whole(slices)).stack
            && multiset(Sequential(Tape(stack, []), Whole(slices)).log) == multiset(m.tape.log) + LocalLog(slices)
  {
    hide Decode, Greedy, Sequential, Replay;
    var m := Merge(Tape(stack, []), 0, seq(CORES, c => []));
    FedQueues(m, arrivals, 0);
    forall c | 0 <= c < CORES ensures Fed(m, arrivals).queues[c] == Stream(slices, last, c) {
      FedQueues(m, arrivals, c);
      FilterStreams(IDLE, slices, last, c);
      assert [] + Stream(slices, last, c) == Stream(slices, last, c);
      assert [] + From(arrivals, c) == From(arrivals, c);
    }
    Assembled(Fed(m, arrivals), slices, last);
  }

  /** The tape after the words of all parts, as they are meant. */
  function Meant(t: Tape, slices: seq<Slice>): Tape
    decreases |slices|
  {
    if slices == [] then t else Meant(Replay(t, Part(slices[0].events)), slices[1..])
  }

  lemma {:induction false} MeantAgrees(t: Tape, slices: seq<Slice>)
    ensures Meant(t, slices).stack == Sequential(t, Whole(slices)).stack
    ensures multiset(Sequential(t, Whole(slices)).log) == multiset(Meant(t, slices).log) + LocalLog(slices)
    decreases |slices|
  {
    if slices != [] {
      var t' := Replay(t, Part(slices[0].events));
      MeantAgrees(t', slices[1..]);
      hide Replay, Sequential, Part;
      Combined(t, t', Meant(t, slices), slices);
    }
  }

  // ------------------------------------------------------------ stopping

  lemma {:induction false} GreedyLog(m: Merge)
    requires Sane(m)
    ensures m.tape.log <= Greedy(m).tape.log
    decreases Queued(m.queues)
  {
    if m.queues[m.target] != [] {
      GreedyLog(Consumed(m));
    }
  }

  lemma LastArrival(m: Merge, arrivals: seq<(nat, nat)>)
    requires Sane(m) && arrivals != [] && forall i ::
               0 <= i < |arrivals| ==> arrivals[i].0 < CORES && Proper(arrivals[i].1)
    ensures Greedy(Fed(m, arrivals[..|arrivals| - 1])).tape.log <= Greedy(Fed(m, arrivals)).tape.log
  {
    hide Decode, Greedy, Sane, Proper;
    var k := |arrivals| - 1;
    var before, from, w := Fed(m, arrivals[..k]), arrivals[k].0, arrivals[k].1;
    assert Fed(m, arrivals) == Enqueued(before, from, w);
    hide Fed;
    GreedyFirst(before, from, w);
    GreedyLog(Enqueued(Greedy(before), from, w));
  }

  lemma PrefixTrans<T>(a: seq<T>, b: seq<T>, c: seq<T>)
    requires a <= b && b <= c
    ensures a <= c
  {
  }

  /** Comparisons are never forgotten. */
  lemma {:induction false} FedLog(m: Merge, arrivals: seq<(nat, nat)>, n: nat)
    requires Sane(m) && n <= |arrivals| && forall i ::
               0 <= i < |arrivals| ==> arrivals[i].0 < CORES && Proper(arrivals[i].1)
    ensures Greedy(Fed(m, arrivals[..n])).tape.log <= Greedy(Fed(m, arrivals)).tape.log
    decreases |arrivals|
  {
    hide Decode, Greedy, Sane, Proper, Fed;
    if n == |arrivals| {
      assert arrivals[..n] == arrivals;
    } else {
      var front := arrivals[..|arrivals| - 1];
      assert front[..n] == arrivals[..n];
      FedLog(m, front, n);
      LastArrival(m, arrivals);
      PrefixTrans(Greedy(Fed(m, arrivals[..n])).tape.log, Greedy(Fed(m, front)).tape.log,
        Greedy(Fed(m, arrivals)).tape.log);
    }
  }

  /** The aggregator stops only if a return of the program does not match: a comparison it has made at any point is
      one of the sequential run, so if all of those match, it goes through every interleaving to its end. */
  lemma StopsOnlyIfWrong(stack: seq<nat>, slices: seq<Slice>, last: nat, arrivals: seq<(nat, nat)>, n: nat)
    requires last < CORES && First(slices, last) == 0 && (forall i :: 0 <= i < |slices| ==> slices[i].core < CORES)
    requires forall i :: 0 <= i < |arrivals| ==> arrivals[i].0 < CORES && Proper(arrivals[i].1)
    requires forall c :: 0 <= c < CORES ==> From(arrivals, c) == FilteredSlices(IDLE, slices, last, c).sent
    requires n <= |arrivals|
    ensures var m := Greedy(Fed(Merge(Tape(stack, []), 0, seq(CORES, c => [])), arrivals[..n]));
            forall c :: c in m.tape.log ==> c in Sequential(Tape(stack, []), Whole(slices)).log
  {
    hide Decode, Greedy, Sequential, Replay, FilteredSlices, Fed;
    var m := Merge(Tape(stack, []), 0, seq(CORES, c => []));
    ParallelIsSequential(stack, slices, last, arrivals);
    FedLog(m, arrivals, n);
    var part, all, whole := Greedy(Fed(m, arrivals[..n])).tape.log, Greedy(Fed(m, arrivals)).tape.log,
        Sequential(Tape(stack, []), Whole(slices)).log;
    forall c | c in part ensures c in whole {
      assert c in all;
      assert c in multiset(all) && c in multiset(whole);
    }
  }

  // ------------------------------------------------------------ the whole system as written

  /** Without switches the token stays where it is: the words of one core are replayed, the others pile up. */
  lemma TokenStays(m: Merge)
    requires Sane(m) && NoSwitch(m.queues[m.target])
    ensures Greedy(m) == Merge(Replay(m.tape, m.queues[m.target]), m.target, m.queues[m.target := []])
  {
    var words := m.queues[m.target];
    assert words + [] == words;
    GreedyReplay(m, words, []);
  }
}
