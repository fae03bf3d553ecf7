/** Instruction-dependency traces: the text printed for a record, and the record read from a line. */
module Traces {
  import opened Wrappers

  // ------------------------------------------------------------ text

  /** Python's `split` on one character. */
  function Split(s: string, sep: char): (parts: seq<string>)
    ensures |parts| >= 1
  {
    if s == "" then [""]
    else
      var n := |s| - 1;
      var parts := Split(s[..n], sep);
      if s[n] == sep then parts + [""] else parts[|parts| - 1 := parts[|parts| - 1] + [s[n]]]
  }

  /** The parts with commas between them. */
  function Join(parts: seq<string>): string
    requires |parts| >= 1
  {
    var n := |parts| - 1;
    if n == 0 then parts[0] else Join(parts[..n]) + "," + parts[n]
  }

  lemma {:induction false} SplitPlain(s: string, sep: char)
    requires sep !in s
    ensures Split(s, sep) == [s]
  {
    if s != "" {
      var n := |s| - 1;
      SplitPlain(s[..n], sep);
      assert s == s[..n] + [s[n]];
    }
  }

  lemma {:induction false} SplitLast(s: string, sep: char, t: string)
    requires sep !in t
    ensures Split(s + [sep] + t, sep) == Split(s, sep) + [t]
  {
    var u := s + [sep] + t;
    var n := |u| - 1;
    if t == "" {
      assert u[..n] == s && u[n] == sep;
    } else {
      var m := |t| - 1;
      SplitLast(s, sep, t[..m]);
      assert u[..n] == s + [sep] + t[..m] && u[n] == t[m];
      assert t == t[..m] + [t[m]];
    }
  }

  lemma {:induction false} SplitJoin(parts: seq<string>)
    requires |parts| >= 1 && forall i :: 0 <= i < |parts| ==> ',' !in parts[i]
    ensures Split(Join(parts), ',') == parts
  {
    var n := |parts| - 1;
    if n == 0 {
      SplitPlain(parts[0], ',');
    } else {
      SplitJoin(parts[..n]);
      assert Join(parts) == Join(parts[..n]) + [','] + parts[n];
      SplitLast(Join(parts[..n]), ',', parts[n]);
      assert parts == parts[..n] + [parts[n]];
    }
  }

  predicate White(c: char) {
    c == ' ' || c == '\t' || c == '\n' || c == '\r' || c == '\U{000B}' || c == '\U{000C}'
  }

  /** Python's `strip`. */
  function Strip(s: string): string {
    if s == "" then s
    else if White(s[0]) then Strip(s[1..])
    else if White(s[|s| - 1]) then Strip(s[..|s| - 1])
    else s
  }

  /** Made of digits, letters and commas. */
  predicate Solid(s: string) {
    forall i :: 0 <= i < |s| ==> !White(s[i]) && s[i] != ':'
  }

  predicate Atom(s: string) {
    Solid(s) && ',' !in s
  }

  lemma {:induction false} JoinSolid(parts: seq<string>)
    requires |parts| >= 1 && forall i :: 0 <= i < |parts| ==> Atom(parts[i])
    ensures Solid(Join(parts))
  {
    if |parts| > 1 {
      JoinSolid(parts[..|parts| - 1]);
    }
  }

  // ------------------------------------------------------------ numbers

  function Digit(d: nat): char
    requires d < 10
  {
    "0123456789"[d]
  }

  function Decimal(n: nat): (s: string)
    ensures s != ""
  {
    if n < 10 then [Digit(n)] else Decimal(n / 10) + [Digit(n % 10)]
  }

  /** The value of a digit, or 10. */
  function Value(c: char): nat {
    if '0' <= c <= '9' then c as nat - '0' as nat else 10
  }

  function Number(s: string): Option<nat> {
    if s == "" then None
    else
      var n := |s| - 1;
      var d := Value(s[n]);
      if d == 10 then None
      else if n == 0 then Some(d)
      else
        match Number(s[..n])
        case Some(high) => Some(10 * high + d)
        case None => None
  }

  lemma DigitFacts(d: nat)
    requires d < 10
    ensures Value(Digit(d)) == d && !White(Digit(d)) && Digit(d) != ':' && Digit(d) != ','
  {
  }

  /** One more digit. */
  lemma NumberMore(s: string, d: nat)
    requires d < 10 && (s == "" || Number(s).Some?)
    ensures Number(s + [Digit(d)]) == Some(if s == "" then d else 10 * Number(s).value + d)
  {
    DigitFacts(d);
    hide Digit, Value, White;
    assert (s + [Digit(d)])[..|s|] == s;
  }

  lemma AtomMore(s: string, d: nat)
    requires d < 10 && Atom(s)
    ensures Atom(s + [Digit(d)])
  {
    DigitFacts(d);
    hide Digit, Value, White;
  }

  lemma {:induction false} NumberDecimal(n: nat)
    ensures Number(Decimal(n)) == Some(n) && Atom(Decimal(n))
  {
    hide Digit, Number, Atom;
    if n < 10 {
      NumberMore("", n);
      NoAtom();
      AtomMore("", n);
      assert "" + [Digit(n)] == [Digit(n)];
    } else {
      NumberDecimal(n / 10);
      NumberMore(Decimal(n / 10), n % 10);
      AtomMore(Decimal(n / 10), n % 10);
    }
  }

  lemma NoAtom()
    ensures Atom("")
  {
  }

  // ------------------------------------------------------------ numbers as Python reads them

  function SkipWhite(s: string): string {
    if s != "" && White(s[0]) then SkipWhite(s[1..]) else s
  }

  function Unsigned(s: string): string {
    if s != "" && (s[0] == '+' || s[0] == '-') then SkipWhite(s[1..]) else s
  }

  function Unsuffixed(s: string): string {
    if s != "" && (s[|s| - 1] == 'l' || s[|s| - 1] == 'L') then s[..|s| - 1] else s
  }

  /** Python's `int`, or its `long`, which also takes a final L: blanks around the number and behind its sign
      are skipped. */
  function ReadInt(s: string, isLong: bool): Option<int> {
    var t := Strip(s);
    var u := Unsigned(t);
    match Number(if isLong then Unsuffixed(u) else u)
    case Some(n) => var v: int := if t != "" && t[0] == '-' then -(n as int) else n as int; Some(v)
    case None => None
  }

  const UINT32: nat := 0x1_0000_0000
  const UINT64: nat := 0x1_0000_0000_0000_0000

  /** A number for a field that takes values below `limit`. */
  function Field(s: string, isLong: bool, limit: nat): Option<nat> {
    match ReadInt(s, isLong)
    case Some(n) => if 0 <= n < limit then Some(n) else None
    case None => None
  }

  lemma {:induction false} DecimalEnds(n: nat)
    ensures var s := Decimal(n); Value(s[0]) < 10 && Value(s[|s| - 1]) < 10
  {
    if n < 10 {
      DigitFacts(n);
    } else {
      DecimalEnds(n / 10);
      DigitFacts(n % 10);
    }
  }

  /** A printed number is read back exactly if the field can hold it. */
  lemma FieldBack(n: nat, isLong: bool, limit: nat)
    ensures Field(Decimal(n), isLong, limit) == if n < limit then Some(n) else None
  {
    var s := Decimal(n);
    NumberDecimal(n);
    DecimalEnds(n);
    hide Decimal, Number;
    StripClean(s);
    hide Strip;
    assert Unsigned(s) == s && Unsuffixed(s) == s;
  }

  lemma StripEnds(s: string)
    requires s != "" && !White(s[0]) && !White(s[|s| - 1])
    ensures Strip(s) == s && Strip(" " + s + " ") == s
  {
    assert (" " + s + " ")[1..] == s + " " && (s + " ")[..|s|] == s;
    assert Strip(" " + s + " ") == Strip(s + " ") == Strip(s);
  }

  lemma UnsignedIs(sign: char, s: string)
    requires (sign == '+' || sign == '-') && s != "" && !White(s[0])
    ensures Unsigned([sign] + s) == Unsigned([sign, ' '] + s) == s
  {
    assert ([sign] + s)[1..] == s && ([sign, ' '] + s)[1..] == " " + s && (" " + s)[1..] == s;
    assert SkipWhite(" " + s) == SkipWhite(s) == s;
  }

  lemma ReadNumeral(t: string, sign: char, s: string, isLong: bool)
    requires (sign == '+' || sign == '-') && Strip(t) != "" && Strip(t)[0] == sign && Unsigned(Strip(t)) == s
    requires Number(s).Some? && s != "" && Value(s[|s| - 1]) < 10
    ensures var n: int := Number(s).value; ReadInt(t, isLong) == Some(if sign == '-' then -n else n)
  {
    hide Strip, Unsigned, Number;
  }

  /** A sign, and blanks around the number and behind its sign, are taken as they are meant. */
  lemma SignedBack(sign: char, n: int, isLong: bool)
    requires n >= 0 && (sign == '+' || sign == '-')
    ensures var v := if sign == '-' then -n else n;
            && ReadInt([sign] + Decimal(n), isLong) == Some(v)
            && ReadInt(" " + ([sign, ' '] + Decimal(n)) + " ", isLong) == Some(v)
  {
    hide Number, Strip, SkipWhite, Unsigned, ReadInt;
    var s := Decimal(n);
    NumberDecimal(n);
    DecimalEnds(n);
    StripEnds([sign] + s);
    StripEnds([sign, ' '] + s);
    UnsignedIs(sign, s);
    ReadNumeral([sign] + s, sign, s, isLong);
    ReadNumeral(" " + ([sign, ' '] + s) + " ", sign, s, isLong);
  }

  /** A final L is taken by `long` and not by `int`. */
  lemma SuffixBack(n: int)
    requires n >= 0
    ensures ReadInt(Decimal(n) + "L", true) == Some(n) && ReadInt(Decimal(n) + "L", false) == None
  {
    var s := Decimal(n);
    NumberDecimal(n);
    DecimalEnds(n);
    NoDigit(s);
    hide Decimal, Number;
    StripEnds(s + "L");
    hide Strip;
    assert Unsigned(s + "L") == s + "L" && (s + "L")[..|s|] == s;
  }

  lemma NoDigit(s: string)
    ensures Number(s + "L") == None
  {
  }

  // ------------------------------------------------------------ records

  /** A dependency record; `kind` is the number of its type. */
  datatype Record = Record(seqNum: nat, kind: nat, pAddr: Option<nat>, size: Option<nat>, flags: Option<nat>,
                           robDep: seq<nat>, compDelay: nat, regDep: seq<nat>,
                           weight: Option<nat>, pc: Option<nat>, vAddr: Option<nat>, asid: Option<nat>)

  const INVALID: nat := 0
  const LOAD: nat := 1
  const STORE: nat := 2
  const COMP: nat := 3

  function KindName(kind: nat): Option<string> {
    if kind == INVALID then Some("INVALID")
    else if kind == LOAD then Some("LOAD")
    else if kind == STORE then Some("STORE")
    else if kind == COMP then Some("COMP")
    else None
  }

  function KindNumber(name: string): Option<nat> {
    if name == "INVALID" then Some(INVALID)
    else if name == "LOAD" then Some(LOAD)
    else if name == "STORE" then Some(STORE)
    else if name == "COMP" then Some(COMP)
    else None
  }

  lemma KindBack(kind: nat)
    ensures KindName(kind).Some? ==> KindNumber(KindName(kind).value) == Some(kind) && Atom(KindName(kind).value)
  {
    assert "INVALID"[0] == 'I' && "LOAD"[0] == 'L' && "STORE"[0] == 'S' && "COMP"[0] == 'C';
  }

  /** The names and numbers of the message definition. */
  lemma KindsAre(kind: nat, name: string)
    ensures KindName(kind) == Some(name) <==>
              || (kind == 0 && name == "INVALID") || (kind == 1 && name == "LOAD")
              || (kind == 2 && name == "STORE") || (kind == 3 && name == "COMP")
    ensures KindNumber(name) == Some(kind) <==> KindName(kind) == Some(name)
  {
    assert "INVALID"[0] == 'I' && "LOAD"[0] == 'L' && "STORE"[0] == 'S' && "COMP"[0] == 'C';
  }

  function Or(o: Option<nat>, default: nat): nat {
    match o
    case Some(v) => v
    case None => default
  }

  /** The record with the defaults of its program counter and weight filled in. */
  function Filled(r: Record): Record {
    r.(pc := Some(Or(r.pc, 0)), weight := Some(Or(r.weight, 1)))
  }

  // ------------------------------------------------------------ printing

  function Optional(o: Option<nat>): seq<string> {
    match o
    case Some(v) => [Decimal(v)]
    case None => []
  }

  function Fields(r: Record, name: string): seq<string> {
    [Decimal(r.seqNum), Decimal(Or(r.pc, 0)), Decimal(Or(r.weight, 1)), name]
    + Optional(r.pAddr) + Optional(r.size) + Optional(r.flags) + [Decimal(r.compDelay)]
  }

  /** The dependencies, each with a comma in front. */
  function Deps(ds: seq<nat>): seq<string> {
    if ds == [] then [""] else Deps(ds[..|ds| - 1]) + [Decimal(ds[|ds| - 1])]
  }

  lemma {:induction false} DepsNonempty(ds: seq<nat>)
    ensures |Deps(ds)| >= 1
  {
    if ds != [] {
      DepsNonempty(ds[..|ds| - 1]);
    }
  }

  function DepsText(ds: seq<nat>): string {
    DepsNonempty(ds);
    Join(Deps(ds))
  }

  /** The line for a record; a record of an unknown type ends the conversion. */
  function Print(r: Record): Result<string> {
    match KindName(r.kind)
    case None => Err("unsupported type")
    case Some(name) => Ok(Join(Fields(r, name)) + ":" + DepsText(r.robDep) + ":" + DepsText(r.regDep) + "\n")
  }

  // ------------------------------------------------------------ reading

  /** Empty pieces are skipped. */
  function ReadDeps(pieces: seq<string>): Option<seq<nat>> {
    if pieces == [] then Some([])
    else
      var n := |pieces| - 1;
      match ReadDeps(pieces[..n])
      case None => None
      case Some(ds) =>
        if pieces[n] == "" then Some(ds)
        else match Field(pieces[n], true, UINT64) case Some(d) => Some(ds + [d]) case None => None
  }

  /** Element i of the list as a number. */
  function Item(info: seq<string>, i: nat, isLong: bool, limit: nat): Result<nat> {
    if i >= |info| then Err("IndexError")
    else match Field(info[i], isLong, limit) case Some(n) => Ok(n) case None => Err("ValueError")
  }

  /** The fields of a load or a store behind its type. */
  function ReadAccess(r: Record, info: seq<string>): Result<Record> {
    if |info| < 8 then Err("ValueError")
    else
      match (Item(info, 4, true, UINT64), Item(info, 5, false, UINT32), Item(info, 6, false, UINT32),
        Item(info, 7, true, UINT64))
      case (Ok(pAddr), Ok(size), Ok(flags), Ok(delay)) =>
        Ok(r.(pAddr := Some(pAddr), size := Some(size), flags := Some(flags), compDelay := delay))
      case _ => Err("ValueError")
  }

  /** The part of a line in front of its dependencies. */
  function ReadInfo(info: seq<string>): Result<Record> {
    match (Item(info, 0, true, UINT64), Item(info, 1, true, UINT64), Item(info, 2, true, UINT32))
    case (Err(e), _, _) => Err(e)
    case (Ok(_), Err(e), _) => Err(e)
    case (Ok(_), Ok(_), Err(e)) => Err(e)
    case (Ok(seqNum), Ok(pc), Ok(weight)) =>
      if |info| < 4 then Err("IndexError")
      else
        match KindNumber(info[3])
        case None => Err("unsupported type")
        case Some(kind) =>
          var r := Record(seqNum, kind, None, None, None, [], 0, [], Some(weight), Some(pc), None, None);
          if kind == INVALID then Err("INVALID type")
          else if kind == LOAD || kind == STORE then ReadAccess(r, info)
          else match Item(info, 4, true, UINT64) case Ok(delay) => Ok(r.(compDelay := delay)) case Err(e) => Err(e)
  }

  function Read(line: string): Result<Record> {
    var parts := Split(Strip(line), ':');
    if |parts| != 3 then Err("ValueError")
    else
      match (ReadInfo(Split(parts[0], ',')), ReadDeps(Split(Strip(parts[1]), ',')), ReadDeps(Split(parts[2], ',')))
      case (Ok(r), Some(rob), Some(reg)) => Ok(r.(robDep := rob, regDep := reg))
      case (Err(e), _, _) => Err(e)
      case _ => Err("ValueError")
  }

  /** A number that `long` reads and that is below the limit. */
  predicate Long(s: string, limit: nat) {
    Field(s, true, limit).Some?
  }

  predicate Int(s: string, limit: nat) {
    Field(s, false, limit).Some?
  }

  predicate DepsRead(pieces: seq<string>) {
    forall i :: 0 <= i < |pieces| ==> pieces[i] == "" || Long(pieces[i], 0x1_0000_0000_0000_0000)
  }

  /** The lines that are read: three parts between colons; in the first one sequence number, program counter and weight,
      the type, for loads and stores address, size and flags, and the delay; in the others numbers. */
  predicate Accepted(line: string) {
    var parts := Split(Strip(line), ':');
    && |parts| == 3 && DepsRead(Split(Strip(parts[1]), ',')) && DepsRead(Split(parts[2], ','))
    && var info := Split(parts[0], ',');
       && |info| >= 5 && Long(info[0], 0x1_0000_0000_0000_0000) && Long(info[1], 0x1_0000_0000_0000_0000)
       && Long(info[2], 0x1_0000_0000) && Long(info[4], 0x1_0000_0000_0000_0000)
       && (info[3] == "COMP"
           || ((info[3] == "LOAD" || info[3] == "STORE") && |info| >= 8 && Int(info[5], 0x1_0000_0000)
               && Int(info[6], 0x1_0000_0000) && Long(info[7], 0x1_0000_0000_0000_0000)))
  }

  lemma {:induction false} DepsReadExactly(pieces: seq<string>)
    ensures ReadDeps(pieces).Some? <==> DepsRead(pieces)
  {
    if pieces != [] {
      var n := |pieces| - 1;
      DepsReadExactly(pieces[..n]);
      hide Field;
      assert forall i :: 0 <= i < n ==> pieces[..n][i] == pieces[i];
      if DepsRead(pieces[..n]) && (pieces[n] == "" || Long(pieces[n], UINT64)) {
        forall i | 0 <= i < |pieces| ensures pieces[i] == "" || Long(pieces[i], UINT64) {
          assert i < n ==> pieces[..n][i] == pieces[i];
        }
      }
    }
  }

  /** A line is converted if and only if it is one of those, and its numbers go to the fields they belong to. */
  lemma ReadExactly(line: string)
    ensures Read(line).Ok? <==> Accepted(line)
    ensures Read(line).Ok? ==>
              var r, info := Read(line).value, Split(Split(Strip(line), ':')[0], ',');
              && Some(r.seqNum) == Field(info[0], true, UINT64) && r.pc == Field(info[1], true, UINT64)
              && r.weight == Field(info[2], true, UINT32) && KindName(r.kind) == Some(info[3])
              && if info[3] == "COMP" then
                   r.pAddr.None? && r.size.None? && r.flags.None? && Some(r.compDelay) == Field(info[4], true, UINT64)
                 else
                   && r.pAddr == Field(info[4], true, UINT64) && r.size == Field(info[5], false, UINT32)
                   && r.flags == Field(info[6], false, UINT32) && Some(r.compDelay) == Field(info[7], true, UINT64)
  {
    hide Split, Strip, Field;
    var parts := Split(Strip(line), ':');
    if |parts| == 3 {
      DepsReadExactly(Split(Strip(parts[1]), ','));
      DepsReadExactly(Split(parts[2], ','));
      hide DepsRead, ReadDeps;
    }
  }

  // ------------------------------------------------------------ round trip

  /** Loads and stores carry address, size and flags, other records none of them; the virtual address and
      the address space, which are never printed, are absent. */
  predicate Carries(r: Record) {
    && r.vAddr.None? && r.asid.None?
    && (if r.kind == LOAD || r.kind == STORE then r.pAddr.Some? && r.size.Some? && r.flags.Some?
        else r.kind == COMP && r.pAddr.None? && r.size.None? && r.flags.None?)
  }

  /** All numbers are below 2^64. */
  predicate Small(ds: seq<nat>) {
    forall i :: 0 <= i < |ds| ==> ds[i] < UINT64
  }

  /** The numbers a record carries fit the fields of the message; so do those of every message. */
  predicate Sized(r: Record) {
    && r.seqNum < UINT64 && r.compDelay < UINT64 && Or(r.pc, 0) < UINT64 && Or(r.weight, 1) < UINT32
    && Or(r.pAddr, 0) < UINT64 && Or(r.size, 0) < UINT32 && Or(r.flags, 0) < UINT32
    && Small(r.robDep) && Small(r.regDep)
  }

  lemma ReadDepsMore(pieces: seq<string>, d: nat)
    ensures ReadDeps(pieces + [Decimal(d)]) ==
            match ReadDeps(pieces) case Some(ds) => (if d < UINT64 then Some(ds + [d]) else None) case None => None
  {
    FieldBack(d, true, UINT64);
    hide Field;
    var more := pieces + [Decimal(d)];
    assert more[..|more| - 1] == pieces && more[|more| - 1] == Decimal(d) != "";
  }

  lemma SmallMore(ds: seq<nat>, d: nat)
    ensures Small(ds + [d]) <==> Small(ds) && d < UINT64
  {
    assert (ds + [d])[|ds|] == d;
    assert forall i :: 0 <= i < |ds| ==> (ds + [d])[i] == ds[i];
  }

  lemma NoDepsBack()
    ensures Deps([]) == [""] && Atom("") && Small([]) && ReadDeps([""]) == Some([])
  {
    assert [""][..0] == [];
  }

  lemma DepsMore(ds: seq<nat>, d: nat)
    ensures Deps(ds + [d]) == Deps(ds) + [Decimal(d)]
  {
    assert (ds + [d])[..|ds|] == ds;
  }

  lemma {:induction false} DepsBack(ds: seq<nat>)
    ensures |Deps(ds)| >= 1 && (forall i :: 0 <= i < |Deps(ds)| ==> Atom(Deps(ds)[i]))
    ensures ReadDeps(Deps(ds)) == if Small(ds) then Some(ds) else None
  {
    hide Number, Decimal, Atom, Small, ReadDeps, Deps;
    if ds == [] {
      NoDepsBack();
    } else {
      var n := |ds| - 1;
      var front, d := ds[..n], ds[n];
      assert ds == front + [d];
      DepsBack(front);
      NumberDecimal(d);
      DepsMore(front, d);
      ReadDepsMore(Deps(front), d);
      SmallMore(front, d);
    }
  }

  lemma StripClean(s: string)
    requires Solid(s)
    ensures Strip(s) == s
  {
  }

  lemma StripLine(s: string)
    requires s != "" && !White(s[0]) && !White(s[|s| - 1])
    ensures Strip(s + "\n") == s
  {
    var t := s + "\n";
    assert t[0] == s[0] && t[|t| - 1] == '\n' && t[..|t| - 1] == s;
  }

  /** A printed line comes apart into what was printed. */
  lemma LineParts(a: string, b: string, c: string)
    requires a != "" && Solid(a) && Solid(b) && Solid(c)
    ensures Split(Strip(a + ":" + b + ":" + c + "\n"), ':') == [a, b, c]
  {
    var s := a + [':'] + b + [':'] + c;
    assert s[0] == a[0] && !White(s[0]);
    assert c == "" ==> s[|s| - 1] == ':';
    assert c != "" ==> s[|s| - 1] == c[|c| - 1];
    StripLine(s);
    hide White, Strip;
    SplitPlain(a, ':');
    SplitLast(a, ':', b);
    SplitLast(a + [':'] + b, ':', c);
  }

  lemma FieldsAtoms(r: Record, name: string)
    requires Atom(name)
    ensures forall i :: 0 <= i < |Fields(r, name)| ==> Atom(Fields(r, name)[i])
  {
    NumberDecimal(r.seqNum);
    NumberDecimal(Or(r.pc, 0));
    NumberDecimal(Or(r.weight, 1));
    NumberDecimal(Or(r.pAddr, 0));
    NumberDecimal(Or(r.size, 0));
    NumberDecimal(Or(r.flags, 0));
    NumberDecimal(r.compDelay);
    hide Atom, Decimal, Number;
  }

  lemma ItemBack(info: seq<string>, i: nat, n: nat, isLong: bool, limit: nat)
    requires i < |info| && info[i] == Decimal(n)
    ensures Item(info, i, isLong, limit) == if n < limit then Ok(n) else Err("ValueError")
  {
    FieldBack(n, isLong, limit);
  }

  /** What is read carries the fields its type calls for. */
  lemma ReadCarries(info: seq<string>)
    ensures ReadInfo(info).Ok? ==> Carries(ReadInfo(info).value)
  {
    hide Item;
  }

  /** The fields of a load or a store, one by one. */
  lemma AccessFields(r: Record, name: string)
    requires r.pAddr.Some? && r.size.Some? && r.flags.Some?
    ensures Fields(r, name) == [Decimal(r.seqNum), Decimal(Or(r.pc, 0)), Decimal(Or(r.weight, 1)), name,
                                Decimal(r.pAddr.value), Decimal(r.size.value), Decimal(r.flags.value),
                                  Decimal(r.compDelay)]
  {
    hide Decimal, Or;
  }

  lemma CompFields(r: Record, name: string)
    requires r.pAddr.None? && r.size.None? && r.flags.None?
    ensures Fields(r, name) == [Decimal(r.seqNum), Decimal(Or(r.pc, 0)), Decimal(Or(r.weight, 1)), name,
            Decimal(r.compDelay)]
  {
    hide Decimal, Or;
  }

  function Checked(n: nat, limit: nat): Result<nat> {
    if n < limit then Ok(n) else Err("ValueError")
  }

  /** The three numbers in front of the type. */
  ghost predicate FrontRead(r: Record, info: seq<string>) {
    && |info| >= 4 && KindNumber(info[3]) == Some(r.kind)
    && Item(info, 0, true, UINT64) == Checked(r.seqNum, UINT64)
    && Item(info, 1, true, UINT64) == Checked(Or(r.pc, 0), UINT64)
    && Item(info, 2, true, UINT32) == Checked(Or(r.weight, 1), UINT32)
  }

  lemma FrontBack(r: Record, name: string, info: seq<string>)
    requires KindName(r.kind) == Some(name) && |info| >= 4
    requires info[..4] == [Decimal(r.seqNum), Decimal(Or(r.pc, 0)), Decimal(Or(r.weight, 1)), name]
    ensures FrontRead(r, info)
  {
    KindBack(r.kind);
    hide Decimal, Item, KindName, KindNumber, Or;
    assert info[0] == info[..4][0] && info[1] == info[..4][1] && info[2] == info[..4][2] && info[3] == info[..4][3];
    ItemBack(info, 0, r.seqNum, true, UINT64);
    ItemBack(info, 1, Or(r.pc, 0), true, UINT64);
    ItemBack(info, 2, Or(r.weight, 1), true, UINT32);
  }

  lemma CompRead(r: Record, info: seq<string>)
    requires FrontRead(r, info) && Carries(r) && r.kind == COMP && Item(info, 4, true, UINT64) ==
             Checked(r.compDelay, UINT64)
    ensures ReadInfo(info) == Ok(Filled(r).(robDep := [], regDep := [])) <==> Sized(r.(robDep := [], regDep := []))
  {
    hide Item, KindNumber;
  }

  lemma AccessRead(r: Record, info: seq<string>)
    requires FrontRead(r, info) && Carries(r) && r.kind != COMP && |info| == 8
    requires Item(info, 4, true, UINT64) == Checked(r.pAddr.value, UINT64)
             && Item(info, 5, false, UINT32) == Checked(r.size.value, UINT32)
    requires Item(info, 6, false, UINT32) == Checked(r.flags.value, UINT32)
             && Item(info, 7, true, UINT64) == Checked(r.compDelay, UINT64)
    ensures ReadInfo(info) == Ok(Filled(r).(robDep := [], regDep := [])) <==> Sized(r.(robDep := [], regDep := []))
  {
    hide Item, KindNumber;
  }

  lemma CompBack(r: Record, name: string)
    requires KindName(r.kind) == Some(name) && Carries(r) && r.kind == COMP
    ensures ReadInfo(Fields(r, name)) == Ok(Filled(r).(robDep := [], regDep := []))
            <==> Sized(r.(robDep := [], regDep := []))
  {
    hide Decimal, Item, KindName, KindNumber, Fields, ReadInfo, Sized, Or;
    var info := Fields(r, name);
    CompFields(r, name);
    FrontBack(r, name, info);
    ItemBack(info, 4, r.compDelay, true, UINT64);
    CompRead(r, info);
  }

  lemma AccessBack(r: Record, name: string)
    requires KindName(r.kind) == Some(name) && Carries(r) && r.kind != COMP
    ensures ReadInfo(Fields(r, name)) == Ok(Filled(r).(robDep := [], regDep := []))
            <==> Sized(r.(robDep := [], regDep := []))
  {
    hide Decimal, Item, KindName, KindNumber, Fields, ReadInfo, Sized, Or;
    var info := Fields(r, name);
    AccessFields(r, name);
    FrontBack(r, name, info);
    ItemBack(info, 4, r.pAddr.value, true, UINT64);
    ItemBack(info, 5, r.size.value, false, UINT32);
    ItemBack(info, 6, r.flags.value, false, UINT32);
    ItemBack(info, 7, r.compDelay, true, UINT64);
    AccessRead(r, info);
  }

  /** Reading back the part in front of the dependencies. */
  lemma InfoBack(r: Record, name: string)
    requires KindName(r.kind) == Some(name)
    ensures ReadInfo(Fields(r, name)) == Ok(Filled(r).(robDep := [], regDep := []))
            <==> Carries(r) && Sized(r.(robDep := [], regDep := []))
  {
    hide ReadInfo, Fields, Sized, KindName;
    if Carries(r) {
      if r.kind == COMP { CompBack(r, name); } else { AccessBack(r, name); }
    } else {
      ReadCarries(Fields(r, name));
    }
  }

  /** The parts of a line put together. */
  function Together(info: Result<Record>, rob: Option<seq<nat>>, reg: Option<seq<nat>>): Result<Record> {
    match (info, rob, reg)
    case (Ok(r), Some(ds), Some(es)) => Ok(r.(robDep := ds, regDep := es))
    case (Err(e), _, _) => Err(e)
    case _ => Err("ValueError")
  }

  lemma ReadParts(line: string, a: string, b: string, c: string)
    requires Split(Strip(line), ':') == [a, b, c]
    ensures Read(line) == Together(ReadInfo(Split(a, ',')), ReadDeps(Split(Strip(b), ',')), ReadDeps(Split(c, ',')))
  {
    hide Split, Strip, ReadInfo, ReadDeps;
  }

  /** The front part decides, together with the sizes of the dependencies. */
  lemma TogetherBack(r: Record, info: Result<Record>)
    requires info.Ok? ==> info.value.robDep == [] && info.value.regDep == []
    ensures Together(info, if Small(r.robDep) then Some(r.robDep) else None, if Small(r.regDep) then Some(r.regDep)
            else None) == Ok(Filled(r))
            <==> info == Ok(Filled(r).(robDep := [], regDep := [])) && Small(r.robDep) && Small(r.regDep)
  {
    hide Small, Or;
  }

  lemma ReadNoDeps(info: seq<string>)
    ensures ReadInfo(info).Ok? ==> ReadInfo(info).value.robDep == [] && ReadInfo(info).value.regDep == []
  {
    hide Item, KindNumber;
  }

  lemma SizedParts(r: Record)
    ensures Sized(r) <==> Sized(r.(robDep := [], regDep := [])) && Small(r.robDep) && Small(r.regDep)
  {
  }

  /** Printing a record and reading the line gives the record back, with its defaults filled in, exactly if
      it carries the fields its type calls for and its numbers fit the fields of the message. */
  lemma RoundTrip(r: Record)
    requires Print(r).Ok?
    ensures Read(Print(r).value) == Ok(Filled(r)) <==> Carries(r) && Sized(r)
  {
    var name := KindName(r.kind).value;
    KindBack(r.kind);
    FieldsAtoms(r, name);
    var fields, rob, reg := Fields(r, name), Deps(r.robDep), Deps(r.regDep);
    DepsBack(r.robDep);
    DepsBack(r.regDep);
    JoinSolid(fields);
    JoinSolid(rob);
    JoinSolid(reg);
    hide Filled, Sized, Small, Carries;
    SplitJoin(fields);
    SplitJoin(rob);
    SplitJoin(reg);
    StripClean(Join(rob));
    LineParts(Join(fields), Join(rob), Join(reg));
    hide Strip, Split, Join, Fields, Deps, ReadInfo, ReadDeps, Read, Atom, Solid;
    ReadParts(Print(r).value, Join(fields), Join(rob), Join(reg));
    ReadNoDeps(fields);
    TogetherBack(r, ReadInfo(fields));
    InfoBack(r, name);
    SizedParts(r);
  }

  // ------------------------------------------------------------ the documented lines

  /** Decimal digits, the first one first. */
  lemma DecimalMore(n: nat, d: nat)
    requires d < 10 && n > 0
    ensures Decimal(10 * n + d) == Decimal(n) + ["0123456789"[d]] && Decimal(d) == ["0123456789"[d]]
  {
    assert (10 * n + d) / 10 == n && (10 * n + d) % 10 == d;
  }

  /** A program counter that is missing is printed as 0, and a weight as 1. */
  lemma DefaultsPrinted(r: Record)
    ensures r.pc.None? ==> Print(r) == Print(r.(pc := Some(0)))
    ensures r.weight.None? ==> Print(r) == Print(r.(weight := Some(1)))
  {
    hide Decimal, DepsText, Join, KindName;
  }

  lemma JoinEight(a: string, b: string, c: string, d: string, e: string, f: string, g: string, h: string)
    ensures Join([a, b, c, d, e, f, g, h]) == a + "," + b + "," + c + "," + d + "," + e + "," + f + "," + g + "," + h
  {
    JoinMore([a], b);
    JoinMore([a, b], c);
    JoinMore([a, b, c], d);
    JoinMore([a, b, c, d], e);
    JoinMore([a, b, c, d, e], f);
    JoinMore([a, b, c, d, e, f], g);
    JoinMore([a, b, c, d, e, f, g], h);
    hide Join;
    assert [a] + [b] == [a, b] && [a, b] + [c] == [a, b, c] && [a, b, c] + [d] == [a, b, c, d];
    assert [a, b, c, d] + [e] == [a, b, c, d, e] && [a, b, c, d, e] + [f] == [a, b, c, d, e, f];
    assert [a, b, c, d, e, f] + [g] == [a, b, c, d, e, f, g] && [a, b, c, d, e, f, g] + [h] == [a, b, c, d, e, f, g, h];
  }

  /** The line of a load or a store: sequence number, program counter, weight, type, address, size, flags, delay,
      order dependencies, register dependencies. */
  lemma AccessLine(r: Record)
    requires (r.kind == 1 || r.kind == 2) && r.pAddr.Some? && r.size.Some? && r.flags.Some?
    requires r.pc.Some? && r.weight.Some?
    ensures Print(r) == Ok(Decimal(r.seqNum) + "," + Decimal(r.pc.value) + "," + Decimal(r.weight.value) + ","
                           + (if r.kind == 1 then "LOAD" else "STORE") + "," + Decimal(r.pAddr.value) + ","
                           + Decimal(r.size.value) + "," + Decimal(r.flags.value) + "," + Decimal(r.compDelay)
                           + ":" + DepsText(r.robDep) + ":" + DepsText(r.regDep) + "\n")
  {
    var name := if r.kind == 1 then "LOAD" else "STORE";
    KindsAre(r.kind, name);
    AccessFields(r, name);
    hide Decimal, DepsText, Fields, KindName, Join;
    JoinEight(Decimal(r.seqNum), Decimal(r.pc.value), Decimal(r.weight.value), name, Decimal(r.pAddr.value),
              Decimal(r.size.value), Decimal(r.flags.value), Decimal(r.compDelay));
  }

  /** The line of a computation. */
  lemma CompLine(r: Record)
    requires r.kind == 3 && r.pAddr.None? && r.size.None? && r.flags.None? && r.pc.Some? && r.weight.Some?
    ensures Print(r) == Ok(Decimal(r.seqNum) + "," + Decimal(r.pc.value) + "," + Decimal(r.weight.value) + ",COMP,"
                           + Decimal(r.compDelay) + ":" + DepsText(r.robDep) + ":" + DepsText(r.regDep) + "\n")
  {
    KindsAre(3, "COMP");
    CompFields(r, "COMP");
    hide Decimal, DepsText, Fields, KindName, Join;
    var a, b, c, d, e := Decimal(r.seqNum), Decimal(r.pc.value), Decimal(r.weight.value), "COMP", Decimal(r.compDelay);
    JoinFour(a, b, c, d);
    JoinMore([a, b, c, d], e);
    assert [a, b, c, d] + [e] == [a, b, c, d, e];
    assert "," + "COMP" + "," == ",COMP,";
    assert a + "," + b + "," + c + "," + "COMP" + "," + e == a + "," + b + "," + c + ",COMP," + e;
  }

  lemma JoinFour(a: string, b: string, c: string, d: string)
    ensures Join([a, b, c, d]) == a + "," + b + "," + c + "," + d
  {
    JoinMore([a], b);
    JoinMore([a, b], c);
    JoinMore([a, b, c], d);
    hide Join;
    assert [a] + [b] == [a, b] && [a, b] + [c] == [a, b, c] && [a, b, c] + [d] == [a, b, c, d];
  }

  /** Every dependency has a comma in front. */
  lemma DepsLine(ds: seq<nat>, d: nat)
    ensures DepsText([]) == "" && DepsText(ds + [d]) == DepsText(ds) + "," + Decimal(d)
  {
    DepsMore(ds, d);
    DepsNonempty(ds);
    DepsNonempty([]);
    hide Decimal;
    JoinMore(Deps(ds), Decimal(d));
  }

  // ------------------------------------------------------------ whole traces

  /** The lines of a text, each with its line end. */
  function Lines(s: string): seq<string> {
    if s == "" then []
    else
      var n := |s| - 1;
      var ls := Lines(s[..n]);
      if ls != [] && !Ended(ls[|ls| - 1]) then ls[|ls| - 1 := ls[|ls| - 1] + [s[n]]] else ls + [[s[n]]]
  }

  predicate Ended(s: string) {
    s != "" && s[|s| - 1] == '\n'
  }

  lemma LinesChar(s: string, c: char)
    ensures var ls := Lines(s);
            Lines(s + [c]) == if ls != [] && !Ended(ls[|ls| - 1]) then ls[|ls| - 1 := ls[|ls| - 1] + [c]]
              else ls + [[c]]
  {
    assert (s + [c])[..|s|] == s;
  }

  lemma {:induction false} LinesOpen(s: string, body: string)
    requires '\n' !in body && body != "" && (s == "" || Ended(s))
    ensures Lines(s + body) == Lines(s) + [body]
    decreases |body|
  {
    hide Lines;
    var m := |body| - 1;
    var front := body[..m];
    assert body == front + [body[m]] && s + body == (s + front) + [body[m]];
    LinesChar(s + front, body[m]);
    if m == 0 {
      LinesEnded(s);
      assert s + front == s;
    } else {
      LinesOpen(s, front);
      assert front[m - 1] in body;
    }
  }

  lemma LinesEnded(s: string)
    requires s == "" || Ended(s)
    ensures Lines(s) != [] ==> Ended(Lines(s)[|Lines(s)| - 1])
  {
  }

  lemma LinesMore(s: string, body: string)
    requires '\n' !in body && body != "" && (s == "" || Ended(s))
    ensures Lines(s + (body + "\n")) == Lines(s) + [body + "\n"] && Ended(s + (body + "\n"))
  {
    LinesOpen(s, body);
    var u := s + (body + "\n");
    assert u[..|u| - 1] == s + body && u[|u| - 1] == '\n';
    assert body[|body| - 1] in body;
  }

  function ReadAll(lines: seq<string>): Result<seq<Record>> {
    if lines == [] then Ok([])
    else
      var n := |lines| - 1;
      match ReadAll(lines[..n])
      case Err(e) => Err(e)
      case Ok(rs) => match Read(lines[n]) case Ok(r) => Ok(rs + [r]) case Err(e) => Err(e)
  }

  /** The line for a record of a known type. */
  function Line(r: Record): string {
    if Print(r).Ok? then Print(r).value else ""
  }

  lemma LineOf(r: Record)
    requires Print(r).Ok?
    ensures Line(r) == Print(r).value
  {
  }

  /** The text for the first n records. */
  function TextOf(rs: seq<Record>, n: nat): string
    requires n <= |rs|
  {
    if n == 0 then "" else TextOf(rs, n - 1) + Line(rs[n - 1])
  }

  /** The first n records with their defaults. */
  function FilledFirst(rs: seq<Record>, n: nat): seq<Record>
    requires n <= |rs|
  {
    if n == 0 then [] else FilledFirst(rs, n - 1) + [Filled(rs[n - 1])]
  }

  /** The types of the first n records are known. */
  predicate Printable(rs: seq<Record>, n: nat)
    requires n <= |rs|
  {
    forall i {:trigger rs[i]} :: 0 <= i < n ==> Print(rs[i]).Ok?
  }

  predicate AllCarry(rs: seq<Record>, n: nat)
    requires n <= |rs|
  {
    forall i {:trigger rs[i]} :: 0 <= i < n ==> Carries(rs[i]) && Sized(rs[i])
  }

  /** One more line. */
  lemma ReadMore(lines: seq<string>, l: string, fs: seq<Record>, f: Record)
    ensures ReadAll(lines + [l]) == Ok(fs + [f]) <==> ReadAll(lines) == Ok(fs) && Read(l) == Ok(f)
  {
    assert (lines + [l])[..|lines|] == lines;
    hide Read;
    if ReadAll(lines + [l]) == Ok(fs + [f]) {
      var rs, r := ReadAll(lines).value, Read(l).value;
      assert rs + [r] == fs + [f];
      assert (rs + [r])[..|rs|] == rs && (fs + [f])[..|fs|] == fs && (rs + [r])[|rs|] == r;
    }
  }

  /** A printed record is one line. */
  lemma OneLine(r: Record) returns (body: string)
    requires Print(r).Ok?
    ensures Print(r).value == body + "\n" && '\n' !in body && body != ""
  {
    var name := KindName(r.kind).value;
    KindBack(r.kind);
    FieldsAtoms(r, name);
    DepsBack(r.robDep);
    DepsBack(r.regDep);
    var a, b, c := Join(Fields(r, name)), DepsText(r.robDep), DepsText(r.regDep);
    JoinSolid(Fields(r, name));
    JoinSolid(Deps(r.robDep));
    JoinSolid(Deps(r.regDep));
    hide Fields, Deps, DepsText, Join, KindName;
    body := a + ":" + b + ":" + c;
    assert White('\n');
  }

  /** How many of the first n records have order (or register) dependencies. */
  function CountDeps(rs: seq<Record>, n: nat, rob: bool): nat
    requires n <= |rs|
  {
    if n == 0 then 0
    else CountDeps(rs, n - 1, rob) + if (if rob then rs[n - 1].robDep else rs[n - 1].regDep) != [] then 1 else 0
  }

  /** The records among the first n that have order (or register) dependencies. */
  /** The first n records that have dependencies of the one kind or the other. */
  ghost function WithDeps(rs: seq<Record>, n: nat, rob: bool): set<int>
    requires n <= |rs|
  {
    set i | 0 <= i < n && (if rob then rs[i].robDep else rs[i].regDep) != []
  }

  lemma {:induction false} CountMeans(rs: seq<Record>, n: nat, rob: bool)
    requires n <= |rs|
    ensures CountDeps(rs, n, rob) == |WithDeps(rs, n, rob)|
  {
    if n == 0 {
      assert WithDeps(rs, n, rob) == {};
    } else {
      CountMeans(rs, n - 1, rob);
      if (if rob then rs[n - 1].robDep else rs[n - 1].regDep) != [] {
        assert WithDeps(rs, n, rob) == WithDeps(rs, n - 1, rob) + {n - 1};
      } else {
        assert WithDeps(rs, n, rob) == WithDeps(rs, n - 1, rob);
      }
    }
  }

  lemma MoreText(rs: seq<Record>, n: nat)
    requires n < |rs|
    ensures TextOf(rs, n + 1) == TextOf(rs, n) + Line(rs[n])
    ensures FilledFirst(rs, n + 1) == FilledFirst(rs, n) + [Filled(rs[n])]
    ensures AllCarry(rs, n + 1) <==> AllCarry(rs, n) && Carries(rs[n]) && Sized(rs[n])
    ensures Printable(rs, n + 1) <==> Printable(rs, n) && Print(rs[n]).Ok?
    ensures forall rob :: CountDeps(rs, n + 1, rob) == CountDeps(rs, n, rob) + if (if rob then rs[n].robDep
            else rs[n].regDep) != [] then 1 else 0
  {
    hide Carries, Sized, Print, Line, Filled;
  }

  lemma Unprintable(rs: seq<Record>, i: nat)
    requires i < |rs| && Print(rs[i]).Err?
    ensures !Printable(rs, |rs|)
  {
  }

  lemma NoText(rs: seq<Record>)
    ensures TextOf(rs, 0) == "" && ReadAll(Lines(TextOf(rs, 0))) == Ok(FilledFirst(rs, 0)) && AllCarry(rs, 0)
    ensures Lines(TextOf(rs, 0)) == [] && Printable(rs, 0) && forall rob :: CountDeps(rs, 0, rob) == 0
  {
  }

  /** Converting a trace to text and back gives the trace, with defaults filled in, exactly if every record
      carries the fields its type calls for. */
  lemma {:induction false} TraceRoundTrip(rs: seq<Record>, n: nat)
    requires n <= |rs| && Printable(rs, n)
    ensures ReadAll(Lines(TextOf(rs, n))) == Ok(FilledFirst(rs, n)) <==> AllCarry(rs, n)
    ensures |Lines(TextOf(rs, n))| == n && (TextOf(rs, n) == "" || Ended(TextOf(rs, n)))
  {
    hide *;
    if n == 0 {
      NoText(rs);
    } else {
      var r := rs[n - 1];
      MoreText(rs, n - 1);
      TraceRoundTrip(rs, n - 1);
      var body := OneLine(r);
      LineOf(r);
      RoundTrip(r);
      LinesMore(TextOf(rs, n - 1), body);
      ReadMore(Lines(TextOf(rs, n - 1)), Line(r), FilledFirst(rs, n - 1), Filled(r));
    }
  }

  // ------------------------------------------------------------ the conversion loops

  /** The printer's text for a list of dependencies. */
  method WriteDeps(ds: seq<nat>) returns (text: string)
    ensures text == DepsText(ds)
  {
    text := "";
    for i := 0 to |ds|
      invariant text == DepsText(ds[..i])
    {
      assert ds[..i + 1][..i] == ds[..i];
      DepsNonempty(ds[..i]);
      var before := Deps(ds[..i]);
      assert (before + [Decimal(ds[i])])[..|before|] == before;
      text := text + "," + Decimal(ds[i]);
    }
    assert ds[..|ds|] == ds;
  }

  /** The parser's loop over the pieces of a dependency list. */
  method CollectDeps(pieces: seq<string>) returns (ds: Option<seq<nat>>)
    ensures ds == ReadDeps(pieces)
  {
    var found: seq<nat> := [];
    for i := 0 to |pieces|
      invariant ReadDeps(pieces[..i]) == Some(found)
    {
      assert pieces[..i + 1][..i] == pieces[..i];
      if pieces[i] != "" {
        match Field(pieces[i], true, UINT64)
        case Some(d) => found := found + [d];
        case None =>
          BadPiece(pieces, i);
          return None;
      }
    }
    assert pieces[..|pieces|] == pieces;
    ds := Some(found);
  }

  /** One piece that is no number spoils the list. */
  lemma {:induction false} BadPiece(pieces: seq<string>, i: nat)
    requires i < |pieces| && pieces[i] != "" && Field(pieces[i], true, UINT64).None?
    ensures ReadDeps(pieces) == None
  {
    if i < |pieces| - 1 {
      BadPiece(pieces[..|pieces| - 1], i);
    }
  }

  lemma JoinMore(parts: seq<string>, p: string)
    requires |parts| >= 1
    ensures Join(parts + [p]) == Join(parts) + "," + p
  {
    assert (parts + [p])[..|parts|] == parts;
  }

  /** A field with a comma in front, if the record has it. */
  method WriteOptional(text: string, o: Option<nat>, ghost done: seq<string>) returns (text': string)
    requires |done| >= 1 && text == Join(done)
    ensures text' == Join(done + Optional(o))
  {
    text' := text;
    match o
    case Some(v) =>
      JoinMore(done, Decimal(v));
      text' := text + "," + Decimal(v);
    case None => assert done + [] == done;
  }

  /** The pieces written for one record, one after the other. */
  method WriteRecord(r: Record) returns (line: Result<string>)
    ensures line == Print(r)
  {
    match KindName(r.kind)
    case None => line := Err("unsupported type");
    case Some(name) =>
      hide Decimal, Or, Join, Optional, Deps, DepsText;
      var text := JoinFirst(Decimal(r.seqNum), Decimal(Or(r.pc, 0)), Decimal(Or(r.weight, 1)), name);
      ghost var done := [Decimal(r.seqNum), Decimal(Or(r.pc, 0)), Decimal(Or(r.weight, 1)), name];
      text := WriteOptional(text, r.pAddr, done);
      text := WriteOptional(text, r.size, done + Optional(r.pAddr));
      text := WriteOptional(text, r.flags, done + Optional(r.pAddr) + Optional(r.size));
      JoinMore(done + Optional(r.pAddr) + Optional(r.size) + Optional(r.flags), Decimal(r.compDelay));
      text := text + "," + Decimal(r.compDelay);
      var deps := WriteDeps(r.robDep);
      text := text + ":" + deps;
      deps := WriteDeps(r.regDep);
      text := text + ":" + deps;
      line := Ok(text + "\n");
  }

  method JoinFirst(a: string, b: string, c: string, d: string) returns (text: string)
    ensures text == Join([a, b, c, d])
  {
    text := a;
    text := text + "," + b;
    text := text + "," + c;
    text := text + "," + d;
    JoinMore([a], b);
    JoinMore([a, b], c);
    JoinMore([a, b, c], d);
    hide Join;
    assert [a] + [b] == [a, b] && [a, b] + [c] == [a, b, c] && [a, b, c] + [d] == [a, b, c, d];
  }

  /** The decoder: records to text, with its three counters; it stops at the first record of unknown type. */
  method DecodeTrace(rs: seq<Record>) returns (text: Result<string>, packets: nat, regDeps: nat, robDeps: nat)
    ensures text.Ok? <==> Printable(rs, |rs|)
    ensures text.Ok? ==> text.value == TextOf(rs, |rs|) && packets == |rs|
    ensures text.Ok? ==> regDeps == CountDeps(rs, |rs|, false) && robDeps == CountDeps(rs, |rs|, true)
  {
    packets, regDeps, robDeps := 0, 0, 0;
    var out := "";
    hide *;
    NoText(rs);
    for i := 0 to |rs|
      invariant Printable(rs, i) && out == TextOf(rs, i) && packets == i
      invariant regDeps == CountDeps(rs, i, false) && robDeps == CountDeps(rs, i, true)
    {
      packets := packets + 1;
      var line := WriteRecord(rs[i]);
      if line.Err? {
        Unprintable(rs, i);
        return Err("unsupported type"), packets, regDeps, robDeps;
      }
      MoreText(rs, i);
      LineOf(rs[i]);
      out := out + line.value;
      if rs[i].robDep != [] { robDeps := robDeps + 1; }
      if rs[i].regDep != [] { regDeps := regDeps + 1; }
    }
    text := Ok(out);
  }

  /** A line that cannot be read ends the conversion. */
  lemma {:induction false} BadLine(lines: seq<string>, i: nat, e: string)
    requires i <= |lines| && ReadAll(lines[..i]) == Err(e)
    ensures ReadAll(lines) == Err(e)
  {
    if i == |lines| {
      assert lines[..i] == lines;
    } else {
      var n := |lines| - 1;
      assert lines[..n][..i] == lines[..i];
      BadLine(lines[..n], i, e);
    }
  }

  /** One line of the encoder. */
  method ConvertLine(line: string) returns (res: Result<Record>)
    ensures res == Read(line) && (res.Ok? <==> Accepted(line))
  {
    ReadExactly(line);
    hide Accepted, Split, Strip, ReadInfo, ReadDeps;
    var parts := Split(Strip(line), ':');
    if |parts| != 3 {
      return Err("ValueError");
    }
    var info := ReadInfo(Split(parts[0], ','));
    if info.Err? {
      return info;
    }
    var rob := CollectDeps(Split(Strip(parts[1]), ','));
    var reg := CollectDeps(Split(parts[2], ','));
    if rob.None? || reg.None? {
      return Err("ValueError");
    }
    res := Ok(info.value.(robDep := rob.value, regDep := reg.value));
  }

  /** The encoder: a text, line by line, to records; it stops at the first line it cannot read. */
  method EncodeTrace(text: string) returns (res: Result<seq<Record>>)
    ensures res == ReadAll(Lines(text))
  {
    var lines := Lines(text);
    var rs: seq<Record> := [];
    for i := 0 to |lines|
      invariant ReadAll(lines[..i]) == Ok(rs)
    {
      assert lines[..i + 1][..i] == lines[..i];
      var next := ConvertLine(lines[i]);
      match next
      case Err(e) =>
        BadLine(lines, i + 1, e);
        return Err(e);
      case Ok(r) => rs := rs + [r];
    }
    assert lines[..|lines|] == lines;
    res := Ok(rs);
  }
}
