/** A family of bit counters: all of them count the ones of a number's binary form. */
module BitCount {

  /** The sum of the digits of x in base b; in base 2, the number of ones. */
  function DigitSum(b: nat, x: nat): nat
    requires b >= 2
  {
    if x == 0 then 0 else x % b + DigitSum(b, x / b)
  }

  function Ones(x: nat): nat {
    DigitSum(2, x)
  }

  /** Bitwise and. */
  function And(x: nat, y: nat): nat {
    if x == 0 || y == 0 then 0 else x % 2 * (y % 2) + 2 * And(x / 2, y / 2)
  }

  function Pow(b: nat, k: nat): nat {
    if k == 0 then 1 else b * Pow(b, k - 1)
  }

  // ------------------------------------------------------------ clearing the lowest bit

  lemma {:induction false} AndSelf(x: nat)
    ensures And(x, x) == x
  {
    if x > 0 {
      AndSelf(x / 2);
    }
  }

  /** x & (x - 1) is x without its lowest one. */
  lemma {:induction false} ClearLowest(x: nat)
    requires x > 0
    ensures And(x, x - 1) < x && Ones(And(x, x - 1)) == Ones(x) - 1
  {
    var h := x / 2;
    if x % 2 == 1 {
      AndSelf(h);
      if h > 0 { assert And(x, x - 1) == 2 * h; }
    } else {
      ClearLowest(h);
      assert (x - 1) / 2 == h - 1;
      assert And(x, x - 1) == 2 * And(h, h - 1);
      var a := And(h, h - 1);
      assert Ones(2 * a) == Ones(a) by { if a > 0 { assert 2 * a % 2 == 0 && 2 * a / 2 == a; } }
    }
  }

  lemma {:induction false} AndAtMost(x: nat, y: nat)
    ensures And(x, y) <= x
  {
    if x > 0 && y > 0 {
      AndAtMost(x / 2, y / 2);
      assert x % 2 * (y % 2) <= x % 2;
    }
  }

  // ------------------------------------------------------------ 64-bit numbers

  const TWO_63: int := 0x8000_0000_0000_0000
  const TWO_64: int := 0x1_0000_0000_0000_0000

  /** A `long`. */
  predicate Long(x: int) {
    -TWO_63 <= x < TWO_63
  }

  /** Its 64 bits, in two's complement. */
  function Pattern(x: int): (b: nat)
    requires Long(x)
    ensures b < TWO_64
  {
    if x >= 0 then x else x + TWO_64
  }

  function FromPattern(b: nat): (x: int)
    requires b < TWO_64
    ensures Long(x) && Pattern(x) == b
  {
    if b < TWO_63 then b else b - TWO_64
  }

  /** x - 1, wrapping around. */
  function Less1(x: int): (y: int)
    requires Long(x)
    ensures Long(y) && (x != 0 ==> Pattern(y) == Pattern(x) - 1)
  {
    if x == -TWO_63 then TWO_63 - 1 else x - 1
  }

  /** x & y on longs. */
  function AndLong(x: int, y: int): (z: int)
    requires Long(x) && Long(y)
    ensures Long(z) && Pattern(z) == And(Pattern(x), Pattern(y))
  {
    AndAtMost(Pattern(x), Pattern(y));
    FromPattern(And(Pattern(x), Pattern(y)))
  }

  /** `bit_count`: one turn of the loop for each one. */
  method BitCountLoop(x0: int) returns (n: nat)
    requires Long(x0)
    ensures n == Ones(Pattern(x0))
  {
    hide And, FromPattern, AndLong, Less1;
    n := 0;
    var x := x0;
    if x != 0 {
      n := n + 1;
      ClearLowest(Pattern(x));
      x := AndLong(x, Less1(x));
      while x != 0
        invariant Long(x) && n + Ones(Pattern(x)) == Ones(Pattern(x0))
        decreases if Long(x) then Pattern(x) else 0
      {
        n := n + 1;
        ClearLowest(Pattern(x));
        x := AndLong(x, Less1(x));
      }
    }
  }

  /** The low bit and the rest of a shifted long are those of its shifted bits. */
  lemma ShiftStep(x: int, rest: nat, k: nat)
    requires k > 0 && (rest == x || rest == x + Pow(2, k))
    ensures x % 2 == rest % 2 && (rest == x ==> rest / 2 == x / 2) && (rest == x + Pow(2, k)
            ==> rest / 2 == x / 2 + Pow(2, k - 1))
  {
    var p := Pow(2, k - 1);
    assert Pow(2, k) == 2 * p;
  }

  lemma Pow64()
    ensures Pow(2, 64) == TWO_64 && Pow(2, 63) == TWO_63 && Pow(2, 0) == 1
  {
    assert Pow(2, 4) == 16;
    assert Pow(2, 8) == 256;
    PowSum(2, 8, 8);
    PowSum(2, 16, 16);
    PowSum(2, 32, 31);
    PowSum(2, 16, 15);
    PowSum(2, 8, 7);
    PowSum(2, 32, 32);
  }

  /** `bit_shifter`; a negative number never becomes 0, and all of its 64 bits are looked at. */
  method BitShifter(x0: int) returns (n: nat)
    requires Long(x0)
    ensures n == Ones(Pattern(x0))
  {
    hide Pow;
    Pow64();
    var i, x := 0, x0;
    ghost var rest := Pattern(x0);
    n := 0;
    while x != 0 && i < 64
      invariant 0 <= i <= 64 && n + Ones(rest) == Ones(Pattern(x0))
      invariant if x0 >= 0 then rest == x < Pow(2, 64 - i) else rest == x + Pow(2, 64 - i) && x < 0
      decreases 64 - i
    {
      ShiftStep(x, rest, 64 - i);
      if x0 >= 0 { Halved(rest, 64 - i); }
      n := n + x % 2;
      rest := rest / 2;
      i := i + 1;
      x := x / 2;
    }
  }

  lemma Halved(x: nat, k: nat)
    requires k > 0 && x < Pow(2, k)
    ensures x / 2 < Pow(2, k - 1)
  {
  }

  // ------------------------------------------------------------ masks

  /** Blocks of w bits do not interfere. */
  lemma {:induction false} AndBlock(w: nat, h: nat, l: nat, m: nat, n: nat)
    requires l < Pow(2, w) && n < Pow(2, w)
    ensures And(Pow(2, w) * h + l, Pow(2, w) * m + n) == Pow(2, w) * And(h, m) + And(l, n)
  {
    hide And;
    if w == 0 {
      AndZero(0);
    } else {
      var p := Pow(2, w - 1);
      var u, v := p * h + l / 2, p * m + n / 2;
      AndBlock(w - 1, h, l / 2, m, n / 2);
      AndBit(u, l % 2, v, n % 2);
      AndBit(l / 2, l % 2, n / 2, n % 2);
      Regroup(p, h, l);
      Regroup(p, m, n);
      Regroup(p, And(h, m), 0);
    }
  }

  lemma Regroup(p: nat, h: nat, l: nat)
    ensures 2 * p * h + l == 2 * (p * h + l / 2) + l % 2
  {
    var ph := p * h;
    assert 2 * p * h == 2 * ph;
  }

  lemma AndBit(h: nat, l: nat, m: nat, n: nat)
    requires l < 2 && n < 2
    ensures And(2 * h + l, 2 * m + n) == 2 * And(h, m) + l * n
  {
  }

  /** A block of ones keeps everything. */
  lemma {:induction false} AndOnes(w: nat, l: nat)
    requires l < Pow(2, w)
    ensures Pow(2, w) >= 1 && And(l, Pow(2, w) - 1) == l
  {
    if w > 0 {
      AndOnes(w - 1, l / 2);
      AndBit(l / 2, l % 2, Pow(2, w - 1) - 1, 1);
    }
  }

  lemma AndZero(x: nat)
    ensures And(x, 0) == 0 && And(0, x) == 0
  {
  }

  lemma {:induction false} PowSum(b: nat, j: nat, k: nat)
    ensures Pow(b, j + k) == Pow(b, j) * Pow(b, k)
  {
    if j > 0 {
      PowSum(b, j - 1, k);
      assert b * (Pow(b, j - 1) * Pow(b, k)) == b * Pow(b, j - 1) * Pow(b, k);
    }
  }

  // ------------------------------------------------------------ division

  lemma Euclid(y: nat, d: nat)
    requires d > 0
    ensures y == d * (y / d) + y % d && y % d < d
  {
  }

  lemma DivUnique(y: int, d: int, q: int, r: int)
    requires d > 0 && y == d * q + r && 0 <= r < d
    ensures y / d == q && y % d == r
  {
    var e := y / d - q;
    assert d * e == r - y % d;
    assert e >= 1 ==> d * e >= d;
    assert e <= -1 ==> d * e <= -d;
  }

  lemma Small(p: nat, q: nat, s: nat, r: nat)
    requires s < q && r < p
    ensures p * s + r < p * q
  {
    assert p * s <= p * (q - 1);
    assert p * (q - 1) == p * q - p;
  }

  /** Dividing twice, and the two remainders. */
  lemma DivDiv(y: nat, p: nat, q: nat)
    requires p > 0 && q > 0
    ensures p * q > 0 && y / p / q == y / (p * q) && y % (p * q) == p * (y / p % q) + y % p
  {
    var a, r := y / p, y % p;
    var b, s := a / q, a % q;
    Euclid(y, p);
    Euclid(a, q);
    Small(p, q, s, r);
    assert p * (q * b + s) == p * q * b + p * s;
    DivUnique(y, p * q, b, p * s + r);
  }

  lemma DigitCons(b: nat, q: nat, s: nat)
    requires b >= 2 && s < b
    ensures DigitSum(b, b * q + s) == s + DigitSum(b, q)
  {
    DivUnique(b * q + s, b, q, s);
    assert q > 0 ==> b * q >= b;
  }

  // ------------------------------------------------------------ parallel sums

  /** k blocks of w ones, each with w zeros above it; pp is 4 to the w. */
  function Lo(w: nat, k: nat): nat {
    if k == 0 || Pow(2, w) == 0 then 0 else Pow(2, w + w) * Lo(w, k - 1) + (Pow(2, w) - 1)
  }

  lemma PowPositive(b: nat, k: nat)
    requires b > 0
    ensures Pow(b, k) > 0
  {
  }

  /** Masking and shifting can be swapped. */
  lemma MaskShift(w: nat, y: nat, m: nat)
    ensures Pow(2, w) > 0 && And(y, Pow(2, w) * m) / Pow(2, w) == And(y / Pow(2, w), m)
  {
    hide And, Pow;
    PowPositive(2, w);
    var p := Pow(2, w);
    Euclid(y, p);
    AndBlock(w, y / p, y % p, m, 0);
    AndZero(y % p);
    DivUnique(p * And(y / p, m), p, And(y / p, m), 0);
  }

  /** The lowest w bits. */
  lemma AndLow(w: nat, r: nat)
    ensures Pow(2, w) > 0 && And(r, Pow(2, w) - 1) == r % Pow(2, w)
  {
    hide And, Pow;
    PowPositive(2, w);
    var p := Pow(2, w);
    Euclid(r, p);
    AndBlock(w, r / p, r % p, 0, p - 1);
    AndZero(r / p);
    AndOnes(w, r % p);
    assert p * 0 == 0;
  }

  /** The lowest block and the blocks above it. */
  lemma AndLo(w: nat, y: nat, k: nat)
    requires k > 0
    ensures Pow(2, w) > 0 && Pow(2, w + w) > 0
    ensures And(y, Lo(w, k)) == Pow(2, w + w) * And(y / Pow(2, w + w), Lo(w, k - 1)) + y % Pow(2, w)
  {
    hide And, Pow;
    PowPositive(2, w);
    PowPositive(2, w + w);
    PowSum(2, w, w);
    var p, pp := Pow(2, w), Pow(2, w + w);
    Euclid(y, pp);
    assert p <= p * p;
    AndBlock(w + w, y / pp, y % pp, Lo(w, k - 1), p - 1);
    AndLow(w, y % pp);
    DivDiv(y, p, p);
    DivUnique(y % pp, p, y / p % p, y % p);
  }

  /** One line of `bitcount`: neighbouring blocks of w bits are added. */
  function Added(w: nat, y: nat, k: nat): nat {
    Shifted(And(y, Hi(w, k)), w) + And(y, Lo(w, k))
  }

  /** The other blocks. */
  function Hi(w: nat, k: nat): nat {
    Pow(2, w) * Lo(w, k)
  }

  /** A right shift by w bits. */
  function Shifted(x: nat, w: nat): nat {
    PowPositive(2, w);
    x / Pow(2, w)
  }

  lemma AddedSplit(w: nat, y: nat, k: nat)
    requires k > 0
    ensures Pow(2, w) > 0 && Pow(2, w + w) > 0
    ensures Added(w, y, k) == Pow(2, w + w) * Added(w, y / Pow(2, w + w),
            k - 1) + (y % Pow(2, w) + y / Pow(2, w) % Pow(2, w))
  {
    hide And, Lo, Pow;
    PowPositive(2, w);
    PowPositive(2, w + w);
    var p, pp := Pow(2, w), Pow(2, w + w);
    var h := y / pp;
    MaskShift(w, y, Lo(w, k));
    MaskShift(w, h, Lo(w, k - 1));
    AndLo(w, y, k);
    AndLo(w, y / p, k);
    DivDiv(y, p, pp);
    DivDiv(y, pp, p);
    Distribute(pp, And(h / p, Lo(w, k - 1)), And(h, Lo(w, k - 1)), p);
  }

  lemma Distribute(q: nat, a: nat, b: nat, p: nat)
    ensures q * (a + b) == q * a + q * b && p * q == q * p
  {
  }

  lemma TwoDigits(p: nat, y: nat)
    requires p >= 2
    ensures p * p >= 2 && DigitSum(p, y) == y % p + y / p % p + DigitSum(p, y / (p * p))
  {
    DivDiv(y, p, p);
    assert p * p >= p;
  }

  lemma Quotient(y: nat, d: nat, q: nat)
    requires d > 0 && y < d * q
    ensures 0 <= y / d < q
  {
    Euclid(y, d);
    var e := q - y / d;
    assert d * e == d * q - d * (y / d);
    assert e <= 0 ==> d * e <= 0;
  }

  lemma PowFacts(w: nat)
    requires w >= 1
    ensures Pow(2, w) >= 2 && Pow(2, w + w) == Pow(2, w) * Pow(2, w) && Pow(2, w + w) >= 2 * Pow(2, w)
  {
    PowPositive(2, w - 1);
    PowSum(2, w, w);
  }

  lemma PowStep(b: nat, k: nat)
    ensures Pow(b, k) == if k == 0 then 1 else b * Pow(b, k - 1)
  {
  }

  /** The digits double in width and keep their sum. */
  lemma {:induction false} AddedSum(w: nat, y: nat, k: nat)
    requires w >= 1 && y < Pow(Pow(2, w + w), k)
    ensures Pow(2, w) >= 2 && Pow(2, w + w) >= 2 && Added(w, y, k) < Pow(Pow(2, w + w), k)
    ensures DigitSum(Pow(2, w + w), Added(w, y, k)) == DigitSum(Pow(2, w), y)
    decreases k
  {
    hide *;
    PowFacts(w);
    var p, pp := Pow(2, w), Pow(2, w + w);
    PowStep(pp, k);
    if k == 0 {
      AddedNone(w);
    } else {
      Quotient(y, pp, Pow(pp, k - 1));
      AddedSum(w, y / pp, k - 1);
      AddedSplit(w, y, k);
      AddedStep(p, pp, y, Added(w, y / pp, k - 1), Pow(pp, k - 1));
    }
  }

  /** Two digits of y and one digit of the sum. */
  lemma AddedStep(p: nat, pp: nat, y: nat, rest: nat, big: nat)
    requires p >= 2 && pp == p * p && pp >= 2 * p && rest < big && DigitSum(pp, rest) == DigitSum(p, y / pp)
    ensures var s := y % p + y / p % p; pp * rest + s < pp * big && DigitSum(pp, pp * rest + s) == DigitSum(p, y)
  {
    hide *;
    Euclid(y, p);
    Euclid(y / p, p);
    var s := y % p + y / p % p;
    DigitCons(pp, rest, s);
    Small(pp, big, rest, s);
    TwoDigits(p, y);
  }

  lemma AddedNone(w: nat)
    ensures Added(w, 0, 0) == 0 && forall b: nat :: b >= 2 ==> DigitSum(b, 0) == 0
  {
    PowPositive(2, w);
    AndZero(Hi(w, 0));
    assert And(0, Hi(w, 0)) == 0;
    DivUnique(0, Pow(2, w), 0, 0);
  }

  lemma Powers()
    ensures Pow(2, 1) == 2 && Pow(2, 2) == 4 && Pow(2, 4) == 16 && Pow(2, 8) == 256 && Pow(2, 16) == 0x10000
    ensures Pow(2, 32) == 0x1_0000_0000
  {
    PowSum(2, 8, 8);
    PowSum(2, 16, 16);
  }

  /** 2^32 as a power of other bases. */
  lemma Words()
    ensures Pow(4, 16) == 0x1_0000_0000 && Pow(16, 8) == 0x1_0000_0000 && Pow(256, 4) == 0x1_0000_0000
    ensures Pow(0x10000, 2) == 0x1_0000_0000 && Pow(0x1_0000_0000, 1) == 0x1_0000_0000
  {
    PowSum(4, 2, 2);
    PowSum(4, 4, 4);
    PowSum(4, 8, 8);
    PowSum(16, 2, 2);
    PowSum(16, 4, 4);
    PowSum(256, 2, 2);
    hide Pow;
    PowOne(4);
    PowOne(16);
    PowOne(256);
    PowOne(0x10000);
    PowOne(0x1_0000_0000);
  }

  lemma PowOne(b: nat)
    ensures Pow(b, 1) == b && Pow(b, 2) == b * b
  {
    PowSum(b, 1, 1);
  }

  /** The masks by multiplication: (p + 1) Lo == p^(2k) - 1. */
  lemma {:induction false} LoClosed(w: nat, k: nat)
    ensures (Pow(2, w) + 1) * Lo(w, k) == Pow(Pow(2, w + w), k) - 1
  {
    PowStep(Pow(2, w + w), k);
    PowPositive(2, w);
    if k > 0 {
      LoClosed(w, k - 1);
      PowSum(2, w, w);
      hide Pow;
      LoFactor(Pow(2, w), Pow(2, w + w), Lo(w, k - 1), Pow(Pow(2, w + w), k - 1));
    }
  }

  lemma LoFactor(p: nat, pp: nat, lo: nat, big: nat)
    requires pp == p * p && p >= 1 && (p + 1) * lo == big - 1
    ensures (p + 1) * (pp * lo + (p - 1)) == pp * big - 1
  {
    assert (p + 1) * (pp * lo) == pp * ((p + 1) * lo);
    assert (p + 1) * (p - 1) == pp - 1;
    assert pp * (big - 1) == pp * big - pp;
    assert (p + 1) * (pp * lo + (p - 1)) == (p + 1) * (pp * lo) + (p + 1) * (p - 1);
  }

  /** The masks of `bitcount`: every second bit, pair, nibble, byte and half word. */
  lemma Masks()
    ensures Lo(1, 16) == 0x55555555 && Lo(2, 8) == 0x33333333 && Lo(4, 4) == 0x0F0F0F0F && Lo(8, 2) == 0x00FF00FF
    ensures Lo(16, 1) == 0x0000FFFF
  {
    hide *;
    Powers();
    Words();
    LoClosed(1, 16);
    LoClosed(2, 8);
    LoClosed(4, 4);
    LoClosed(8, 2);
    LoClosed(16, 1);
  }

  /** One line of `bitcount` on a 32-bit number, in terms of digits. */
  lemma Line(w: nat, k: nat, p: nat, pp: nat, hi: nat, lo: nat, y: nat, next: nat)
    requires w >= 1 && p >= 2 && pp >= 2 && p == Pow(2, w) && pp == Pow(2, w + w) && Pow(pp, k) == 0x1_0000_0000
    requires lo == Lo(w, k) && hi == p * lo && y < 0x1_0000_0000 && next == And(y, hi) / p + And(y, lo)
    ensures next < 0x1_0000_0000 && DigitSum(pp, next) == DigitSum(p, y)
  {
    hide And, Pow, Lo, DigitSum;
    AddedSum(w, y, k);
  }

  /** `bitcount`: five lines, each adding neighbouring blocks of bits. */
  method ParallelSums(x: nat) returns (i: nat)
    requires x < 0x1_0000_0000
    ensures i == Ones(x)
  {
    hide And, Pow, Lo, DigitSum;
    Powers();
    Words();
    Masks();
    i := x;
    ghost var y := i;
    i := And(i, 0xAAAAAAAA) / 2 + And(i, 0x55555555);
    Line(1, 16, 2, 4, 0xAAAAAAAA, 0x55555555, y, i);
    y := i;
    i := And(i, 0xCCCCCCCC) / 4 + And(i, 0x33333333);
    Line(2, 8, 4, 16, 0xCCCCCCCC, 0x33333333, y, i);
    y := i;
    i := And(i, 0xF0F0F0F0) / 16 + And(i, 0x0F0F0F0F);
    Line(4, 4, 16, 256, 0xF0F0F0F0, 0x0F0F0F0F, y, i);
    y := i;
    i := And(i, 0xFF00FF00) / 256 + And(i, 0x00FF00FF);
    Line(8, 2, 256, 0x10000, 0xFF00FF00, 0x00FF00FF, y, i);
    y := i;
    i := And(i, 0xFFFF0000) / 0x10000 + And(i, 0x0000FFFF);
    Line(16, 1, 0x10000, 0x1_0000_0000, 0xFFFF0000, 0x0000FFFF, y, i);
    OneDigit(0x1_0000_0000, i);
  }

  lemma OneDigit(b: nat, x: nat)
    requires b >= 2 && x < b
    ensures DigitSum(b, x) == x
  {
    DigitCons(b, 0, x);
  }

  // ------------------------------------------------------------ table lookup

  /** The 256 entries of the table, in rows of 16. */
  const ROWS: seq<seq<nat>> := [
    [0, 1, 1, 2, 1, 2, 2, 3, 1, 2, 2, 3, 2, 3, 3, 4],
    [1, 2, 2, 3, 2, 3, 3, 4, 2, 3, 3, 4, 3, 4, 4, 5],
    [1, 2, 2, 3, 2, 3, 3, 4, 2, 3, 3, 4, 3, 4, 4, 5],
    [2, 3, 3, 4, 3, 4, 4, 5, 3, 4, 4, 5, 4, 5, 5, 6],
    [1, 2, 2, 3, 2, 3, 3, 4, 2, 3, 3, 4, 3, 4, 4, 5],
    [2, 3, 3, 4, 3, 4, 4, 5, 3, 4, 4, 5, 4, 5, 5, 6],
    [2, 3, 3, 4, 3, 4, 4, 5, 3, 4, 4, 5, 4, 5, 5, 6],
    [3, 4, 4, 5, 4, 5, 5, 6, 4, 5, 5, 6, 5, 6, 6, 7],
    [1, 2, 2, 3, 2, 3, 3, 4, 2, 3, 3, 4, 3, 4, 4, 5],
    [2, 3, 3, 4, 3, 4, 4, 5, 3, 4, 4, 5, 4, 5, 5, 6],
    [2, 3, 3, 4, 3, 4, 4, 5, 3, 4, 4, 5, 4, 5, 5, 6],
    [3, 4, 4, 5, 4, 5, 5, 6, 4, 5, 5, 6, 5, 6, 6, 7],
    [2, 3, 3, 4, 3, 4, 4, 5, 3, 4, 4, 5, 4, 5, 5, 6],
    [3, 4, 4, 5, 4, 5, 5, 6, 4, 5, 5, 6, 5, 6, 6, 7],
    [3, 4, 4, 5, 4, 5, 5, 6, 4, 5, 5, 6, 5, 6, 6, 7],
    [4, 5, 5, 6, 5, 6, 6, 7, 5, 6, 6, 7, 6, 7, 7, 8]
  ]

  function Bits(i: nat): nat
    requires i < 256
  {
    ROWS[i / 16][i % 16]
  }

  lemma TableRow(h: nat, l: nat)
    requires h < 16 && l < 16
    ensures |ROWS[h]| == 16 && ROWS[h][l] == ROWS[0][h] + ROWS[0][l]
  {
  }

  lemma FirstRow(l: nat)
    requires l < 16
    ensures ROWS[0][l] == l % 2 + l / 2 % 2 + l / 4 % 2 + l / 8 % 2
  {
  }

  lemma OnesNibble(l: nat)
    requires l < 16
    ensures Ones(l) == l % 2 + l / 2 % 2 + l / 4 % 2 + l / 8 % 2
  {
    hide DigitSum;
    var m := l / 4;
    TwoDigits(2, l);
    TwoDigits(2, m);
    OneDigit(2, 0);
    assert m / 2 == l / 8 && m / 4 == 0;
  }

  /** The low w bits and the rest are counted separately. */
  lemma {:induction false} OnesSplit(w: nat, h: nat, l: nat)
    requires l < Pow(2, w)
    ensures Ones(Pow(2, w) * h + l) == Ones(h) + Ones(l)
  {
    if w > 0 {
      var p := Pow(2, w - 1);
      OnesSplit(w - 1, h, l / 2);
      hide DigitSum;
      Regroup(p, h, l);
      DigitCons(2, p * h + l / 2, l % 2);
      DigitCons(2, l / 2, l % 2);
    }
  }

  /** Every entry of the table is the number of ones of its index. */
  lemma Table(i: nat)
    requires i < 256
    ensures Bits(i) == Ones(i)
  {
    hide Ones, Pow;
    Powers();
    OnesSplit(4, i / 16, i % 16);
    TableRow(i / 16, i % 16);
    FirstRow(i / 16);
    FirstRow(i % 16);
    OnesNibble(i / 16);
    OnesNibble(i % 16);
  }

  // ------------------------------------------------------------ counting by nibbles and bytes

  /** Masking out the nibble above j bits and shifting it down. */
  lemma Nibble(j: nat, x: nat)
    ensures Pow(2, j) > 0 && And(x, Pow(2, j) * 15) / Pow(2, j) == x / Pow(2, j) % 16
  {
    hide And, Pow;
    PowPositive(2, j);
    MaskShift(j, x, 15);
    Powers();
    AndLow(4, x / Pow(2, j));
  }

  lemma OnesHigh(b: nat, w: nat, x: nat)
    requires b == Pow(2, w) && b > 0
    ensures Ones(x) == Ones(x / b) + Ones(x % b)
  {
    hide Ones, Pow;
    Euclid(x, b);
    OnesSplit(w, x / b, x % b);
  }

  /** Four bytes or eight nibbles make up a 32-bit number. */
  lemma OnesBytes(x: nat)
    requires x < 0x1_0000_0000
    ensures Ones(x) == Ones(x % 256) + Ones(x / 0x100 % 256) + Ones(x / 0x1_0000 % 256) + Ones(x / 0x100_0000 % 256)
  {
    hide Ones, Pow;
    Powers();
    OnesHigh(256, 8, x);
    OnesHigh(256, 8, x / 0x100);
    OnesHigh(256, 8, x / 0x1_0000);
    assert x / 0x100 / 256 == x / 0x1_0000 && x / 0x1_0000 / 256 == x / 0x100_0000;
    assert x / 0x100_0000 % 256 == x / 0x100_0000;
  }

  /** The masked and shifted nibbles of `ntbl_bitcount`. */
  lemma Nibbles(x: nat)
    ensures And(x, 0x0000000F) == x % 16 && And(x, 0x000000F0) / 0x10 == x / 0x10 % 16
    ensures And(x, 0x00000F00) / 0x100 == x / 0x100 % 16 && And(x, 0x0000F000) / 0x1000 == x / 0x1000 % 16
    ensures And(x, 0x000F0000) / 0x1_0000 == x / 0x1_0000 % 16 && And(x, 0x00F00000) / 0x10_0000 == x / 0x10_0000 % 16
    ensures And(x, 0x0F000000) / 0x100_0000 == x / 0x100_0000 % 16
    ensures And(x, 0xF0000000) / 0x1000_0000 == x / 0x1000_0000 % 16
  {
    hide And, Pow;
    Powers();
    MorePowers();
    AndLow(4, x);
    Nibble(4, x);
    Nibble(8, x);
    Nibble(12, x);
    Nibble(16, x);
    Nibble(20, x);
    Nibble(24, x);
    Nibble(28, x);
  }

  lemma MorePowers()
    ensures Pow(2, 12) == 0x1000 && Pow(2, 20) == 0x10_0000 && Pow(2, 24) == 0x100_0000 && Pow(2, 28) == 0x1000_0000
  {
    hide Pow;
    Powers();
    PowSum(2, 8, 4);
    PowSum(2, 16, 4);
    PowSum(2, 16, 8);
    PowSum(2, 24, 4);
  }

  /** `ntbl_bitcount`. */
  function NibbleTable(x: nat): nat
    requires x < 0x1_0000_0000
  {
    Nibbles(x);
    Bits(And(x, 0x0000000F))
    + Bits(And(x, 0x000000F0) / 0x10)
    + Bits(And(x, 0x00000F00) / 0x100)
    + Bits(And(x, 0x0000F000) / 0x1000)
    + Bits(And(x, 0x000F0000) / 0x1_0000)
    + Bits(And(x, 0x00F00000) / 0x10_0000)
    + Bits(And(x, 0x0F000000) / 0x100_0000)
    + Bits(And(x, 0xF0000000) / 0x1000_0000)
  }

  /** A byte from two entries of the first row. */
  lemma ByteByNibbles(y: nat)
    ensures Ones(y % 256) == Bits(y % 16) + Bits(y / 16 % 16)
  {
    hide Ones, Bits, Pow;
    Table(y % 16);
    Table(y / 16 % 16);
    Powers();
    OnesHigh(16, 4, y % 256);
    ByteHalves(y);
  }

  lemma ByteHalves(y: nat)
    ensures y % 256 / 16 == y / 16 % 16 && y % 256 % 16 == y % 16
  {
  }

  lemma NibbleAbove(x: nat)
    ensures x / 0x100 / 16 == x / 0x1000 && x / 0x1_0000 / 16 == x / 0x10_0000 && x / 0x100_0000 / 16 == x / 0x1000_0000
  {
    DivDiv(x, 0x100, 16);
    DivDiv(x, 0x1_0000, 16);
    DivDiv(x, 0x100_0000, 16);
  }

  lemma NibbleTableCounts(x: nat)
    requires x < 0x1_0000_0000
    ensures NibbleTable(x) == Ones(x)
  {
    hide Ones, Bits, And;
    Nibbles(x);
    ByteByNibbles(x);
    ByteByNibbles(x / 0x100);
    ByteByNibbles(x / 0x1_0000);
    ByteByNibbles(x / 0x100_0000);
    OnesBytes(x);
    NibbleAbove(x);
  }

  /** Byte k of a number in memory, least significant first. */
  function Byte(x: nat, k: nat): nat
    requires k < 4
  {
    if k == 0 then x % 256 else if k == 1 then x / 0x100 % 256 else if k == 2 then x / 0x1_0000 % 256
        else x / 0x100_0000 % 256
  }

  /** `BW_btbl_bitcount`. */
  function ByteTable(x: nat): nat {
    Bits(Byte(x, 0)) + Bits(Byte(x, 1)) + Bits(Byte(x, 3)) + Bits(Byte(x, 2))
  }

  lemma ByteTableCounts(x: nat)
    requires x < 0x1_0000_0000
    ensures ByteTable(x) == Ones(x)
  {
    hide Ones, Bits;
    Table(Byte(x, 0));
    Table(Byte(x, 1));
    Table(Byte(x, 2));
    Table(Byte(x, 3));
    OnesBytes(x);
  }

  /** `AR_btbl_bitcount`: a pointer moves over the bytes. */
  method BytePointer(x: nat) returns (accu: nat)
    requires x < 0x1_0000_0000
    ensures accu == Ones(x)
  {
    hide Ones, Bits;
    var ptr := 0;
    accu := Bits(Byte(x, ptr));
    ptr := ptr + 1;
    accu := accu + Bits(Byte(x, ptr));
    ptr := ptr + 1;
    accu := accu + Bits(Byte(x, ptr));
    ptr := ptr + 1;
    accu := accu + Bits(Byte(x, ptr));
    ByteTableCounts(x);
  }

  /** `ntbl_bitcnt`: a nibble, then the rest. */
  method NibbleRecursive(x0: nat) returns (cnt: nat)
    ensures cnt == Ones(x0)
    decreases x0
  {
    hide Ones, Bits, And;
    Powers();
    AndLow(4, x0);
    Table(x0 % 16);
    OnesHigh(16, 4, x0);
    cnt := Bits(And(x0, 0x0000000F));
    var x := x0 / 16;
    if x != 0 {
      var rest := NibbleRecursive(x);
      cnt := cnt + rest;
    } else {
      OneDigit(2, 0);
    }
  }

  /** `btbl_bitcnt`: a byte, then the rest. */
  method ByteRecursive(x0: nat) returns (cnt: nat)
    ensures cnt == Ones(x0)
    decreases x0
  {
    hide Ones, Bits;
    Powers();
    Table(Byte(x0, 0));
    OnesHigh(256, 8, x0);
    cnt := Bits(Byte(x0, 0));
    var x := x0 / 256;
    if x != 0 {
      var rest := ByteRecursive(x);
      cnt := cnt + rest;
    } else {
      OneDigit(2, 0);
    }
  }
}
