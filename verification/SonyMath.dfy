/** The table-driven integer logarithms of the demodulator driver, in hundredths. */
module SonyMath {
  import opened Arithmetic
  import opened Bytes

  /** Hundredths of log2(1 + i/32). */
  const LOOKUP: seq<nat> :=
    [0, 4, 9, 13, 17, 21, 25, 29, 32, 36, 39, 43, 46, 49, 52, 55,
     58, 61, 64, 67, 70, 73, 75, 78, 81, 83, 86, 88, 91, 93, 95, 98]

  function Entry(i: nat): (t: nat)
    requires i < 32
  {
    LOOKUP[i]
  }

  lemma EntriesRise(i: nat, j: nat)
    requires i <= j < 32
    ensures Entry(i) <= Entry(j) <= 98
  {
    assert forall k | 0 <= k < 31 :: LOOKUP[k] <= LOOKUP[k + 1];
    StepsRise(i, j);
    StepsRise(j, 31);
  }

  lemma {:induction false} StepsRise(i: nat, j: nat)
    requires i <= j < 32 && forall k | 0 <= k < 31 :: LOOKUP[k] <= LOOKUP[k + 1]
    ensures LOOKUP[i] <= LOOKUP[j]
    decreases j - i
  {
    if i < j {
      StepsRise(i, j - 1);
    }
  }

  /** The position of the highest set bit. */
  function Top(x: nat): (c: nat) {
    if x < 2 then 0 else 1 + Top(x / 2)
  }

  function Pow2(n: nat): (p: nat)
    ensures p > 0
  {
    if n == 0 then 1 else 2 * Pow2(n - 1)
  }

  lemma {:induction false} TopBounds(x: nat)
    requires x > 0
    ensures Pow2(Top(x)) <= x < Pow2(Top(x) + 1)
  {
    if x >= 2 {
      TopBounds(x / 2);
    }
  }

  lemma {:induction false} TopAtMost(x: nat, k: nat)
    requires x < Pow2(k + 1)
    ensures Top(x) <= k
  {
    if x >= 2 {
      TopAtMost(x / 2, k - 1);
    }
  }

  lemma {:induction false} TopRises(x: nat, y: nat)
    requires x <= y
    ensures Top(x) <= Top(y)
  {
    if x >= 2 {
      TopRises(x / 2, y / 2);
    }
  }

  function Floor(x: nat, p: nat): (q: nat)
    requires p > 0
  {
    x / p
  }

  /** A number with its bit c moved to bit 5. */
  function Leading(x: nat, c: nat): (m: nat) {
    if c <= 5 then x * Pow2(5 - c) else Floor(x, Pow2(c - 5))
  }

  /** The five bits below the highest one. */
  function Index(x: nat): (i: nat)
    ensures i < 32
  {
    Leading(x, Top(x)) % 32
  }

  lemma Associate(a: nat, b: nat, c: nat)
    ensures a * (b * c) == (a * b) * c
  {}

  lemma {:induction false} Pow2Add(a: nat, b: nat)
    ensures Pow2(a + b) == Pow2(a) * Pow2(b)
  {
    if a > 0 {
      Pow2Add(a - 1, b);
      Associate(2, Pow2(a - 1), Pow2(b));
    }
  }

  lemma Quotient(x: nat, p: nat, q: nat)
    requires p > 0 && q * p <= x < (q + 1) * p
    ensures Floor(x, p) == q
  {
    hide Floor;
    Between(x, p);
    if Floor(x, p) < q {
      Product(Floor(x, p) + 1, q, p, p);
      assert false;
    }
    if Floor(x, p) > q {
      Product(q + 1, Floor(x, p), p, p);
      assert false;
    }
  }

  lemma Between(x: nat, p: nat)
    requires p > 0
    ensures Floor(x, p) * p <= x < (Floor(x, p) + 1) * p
  {}

  lemma LeadingRange(x: nat)
    requires x > 0
    ensures 32 <= Leading(x, Top(x)) < 64 && Leading(x, Top(x)) == 32 + Index(x)
  {
    TopBounds(x);
    assert Pow2(Top(x) + 1) == 2 * Pow2(Top(x));
    hide Leading;
    LeadingBounds(x, Top(x));
  }

  lemma LeadingBounds(x: nat, c: nat)
    requires Pow2(c) <= x < 2 * Pow2(c)
    ensures 32 <= Leading(x, c) < 64
  {
    Pow2OfFive();
    hide Pow2, Floor;
    if c <= 5 {
      Pow2Add(c, 5 - c);
      LowProduct(x, Pow2(c), Pow2(5 - c));
    } else {
      Pow2Add(5, c - 5);
      HighQuotient(x, Pow2(c - 5));
    }
  }

  lemma Pow2OfFive()
    ensures Pow2(5) == 32
  {}

  lemma LowProduct(x: nat, p: nat, q: nat)
    requires p <= x < 2 * p && p * q == 32
    ensures 32 <= x * q < 64
  {
    Product(p, x, q, q);
    Product(x + 1, 2 * p, q, q);
    assert q > 0;
  }

  lemma HighQuotient(x: nat, p: nat)
    requires p > 0 && 32 * p <= x < 64 * p
    ensures 32 <= Floor(x, p) < 64
  {
    hide Floor;
    var q := Floor(x, p);
    Between(x, p);
    if q < 32 {
      Product(q + 1, 32, p, p);
      assert false;
    }
    if q >= 64 {
      Product(64, q, p, p);
      assert false;
    }
  }

  /** The highest bit and the five below it, and what is cut off. */
  lemma Mantissa(x: nat)
    requires x > 0
    ensures Top(x) <= 5 ==> 32 + Index(x) == x * Pow2(5 - Top(x))
    ensures Top(x) > 5 ==> (32 + Index(x)) * Pow2(Top(x) - 5) <= x < (33 + Index(x)) * Pow2(Top(x) - 5)
  {
    LeadingRange(x);
    hide Pow2, Floor, Top, Index;
    if Top(x) > 5 {
      Between(x, Pow2(Top(x) - 5));
    }
  }

  /* ---------- Logarithm to base 2 ---------- */

  function Log2Of(x: nat): (r: nat) {
    if x == 0 then 0 else 100 * Top(x) + Entry(Index(x))
  }

  /** The driver keeps the index in eight bits before masking it. */
  lemma IndexInBytes(x: nat)
    requires x > 0
    ensures Top(x) == 0 ==> Index(x) == 0
    ensures Top(x) <= 5 ==> Index(x) == Wrap8(x * Pow2(5 - Top(x))) % 32
    ensures Top(x) > 5 ==> Index(x) == Wrap8(x / Pow2(Top(x) - 5)) % 32
  {
    LeadingRange(x);
    TopBounds(x);
    assert Top(x) == 0 ==> x == 1 && Pow2(5) == 32;
  }

  method Log2(x: nat) returns (r: nat)
    requires x < 0x1_0000_0000
    ensures r == Log2Of(x) && r <= 3198
  {
    hide Pow2, Index;
    LargePowers();
    TopAtMost(x, 31);
    if x > 0 {
      IndexInBytes(x);
      EntriesRise(0, Index(x));
    }
    var count: nat := 0;
    var rest: nat := x / 2;
    while rest > 0
      invariant Top(x) == count + (if rest == 0 then 0 else 1 + Top(rest))
    {
      count := Wrap8(count + 1);
      rest := rest / 2;
    }
    r := count * 100;
    if count > 0 {
      if count <= 5 {
        var index := Wrap8(x * Pow2(5 - count)) % 32;
        r := r + LOOKUP[index];
      } else {
        var index := Wrap8(x / Pow2(count - 5)) % 32;
        r := r + LOOKUP[index];
      }
    }
  }

  /** Within 98 hundredths above the position of the highest bit. */
  lemma Log2Range(x: nat)
    requires x > 0
    ensures 100 * Top(x) <= Log2Of(x) <= 100 * Top(x) + 98
    ensures Pow2(Top(x)) <= x < Pow2(Top(x) + 1)
  {
    EntriesRise(0, Index(x));
    TopBounds(x);
  }

  /** Doubling adds exactly one. */
  lemma Log2Doubles(x: nat)
    requires x > 0
    ensures Log2Of(2 * x) == Log2Of(x) + 100
  {
    assert Top(2 * x) == Top(x) + 1;
    SameIndex(x, Top(x));
  }

  lemma SameIndex(x: nat, c: nat)
    requires x > 0 && c == Top(x) && Top(2 * x) == c + 1
    ensures Index(2 * x) == Index(x)
  {
    hide Top, Floor;
    if c < 5 {
      assert Pow2(5 - c) == 2 * Pow2(4 - c);
      hide Pow2;
      Regroup(x, Pow2(4 - c));
    } else if c == 5 {
      assert Pow2(0) == 1 && Pow2(1) == 2;
      HalvedQuotient(x, 1);
      Quotient(x, 1, x);
    } else {
      assert Pow2(c - 4) == 2 * Pow2(c - 5);
      hide Pow2;
      HalvedQuotient(x, Pow2(c - 5));
    }
  }

  lemma Regroup(x: nat, p: nat)
    ensures 2 * x * p == x * (2 * p)
  {}

  lemma HalvedQuotient(x: nat, p: nat)
    requires p > 0
    ensures Floor(2 * x, 2 * p) == Floor(x, p)
  {
    hide Floor;
    Between(x, p);
    var q := Floor(x, p);
    assert q * (2 * p) == 2 * (q * p) && (q + 1) * (2 * p) == 2 * ((q + 1) * p);
    Quotient(2 * x, 2 * p, q);
  }

  lemma Log2Rises(x: nat, y: nat)
    requires x <= y
    ensures Log2Of(x) <= Log2Of(y)
  {
    if x > 0 {
      hide Index, Entry;
      TopRises(x, y);
      EntriesRise(0, Index(x));
      if Top(x) == Top(y) {
        IndexRises(x, y);
        EntriesRise(Index(x), Index(y));
      }
    }
  }

  lemma IndexRises(x: nat, y: nat)
    requires 0 < x <= y && Top(x) == Top(y)
    ensures Index(x) <= Index(y)
  {
    LeadingRange(x);
    LeadingRange(y);
    hide Index, Top, Pow2, Floor;
    var c := Top(x);
    if c <= 5 {
      Product(x, y, Pow2(5 - c), Pow2(5 - c));
    } else {
      FloorRises(x, y, Pow2(c - 5));
    }
  }

  lemma FloorRises(x: nat, y: nat, p: nat)
    requires x <= y && p > 0
    ensures Floor(x, p) <= Floor(y, p)
  {
    hide Floor;
    Between(x, p);
    Between(y, p);
    if Floor(y, p) < Floor(x, p) {
      Product(Floor(y, p) + 1, Floor(x, p), p, p);
      assert false;
    }
  }

  /* ---------- How close the table comes to the true logarithm ---------- */

  function Pow(b: nat, e: nat): (p: nat) {
    if e == 0 then 1 else b * Pow(b, e - 1)
  }

  lemma {:induction false} PowAdd(b: nat, m: nat, n: nat)
    ensures Pow(b, m + n) == Pow(b, m) * Pow(b, n)
  {
    if m > 0 {
      PowAdd(b, m - 1, n);
      Associate(b, Pow(b, m - 1), Pow(b, n));
    }
  }

  lemma Rearrange(a: nat, b: nat, c: nat, d: nat)
    ensures (a * b) * (c * d) == (a * c) * (b * d)
  {}

  lemma {:induction false} PowOfProduct(a: nat, b: nat, e: nat)
    ensures Pow(a * b, e) == Pow(a, e) * Pow(b, e)
  {
    if e > 0 {
      PowOfProduct(a, b, e - 1);
      Rearrange(a, b, Pow(a, e - 1), Pow(b, e - 1));
    }
  }

  lemma {:induction false} PowRises(a: nat, b: nat, e: nat)
    requires a <= b
    ensures Pow(a, e) <= Pow(b, e)
  {
    if e > 0 {
      PowRises(a, b, e - 1);
      Product(a, b, Pow(a, e - 1), Pow(b, e - 1));
    }
  }

  lemma {:induction false} PowOfPow2(c: nat, e: nat)
    ensures Pow(Pow2(c), e) == Pow2(c * e)
  {
    if e > 0 {
      PowOfPow2(c, e - 1);
      Pow2Add(c, c * (e - 1));
      assert c + c * (e - 1) == c * e;
    }
  }

  function Square(m: nat): nat { m * m }

  /** The hundredth power, by squaring. */
  function Hundredth(m: nat): nat {
    Square(Square(m * Square(Square(Square(m * m * m)))))
  }

  lemma HundredthIsPow(m: nat)
    ensures Hundredth(m) == Pow(m, 100)
  {
    assert Pow(m, 3) == m * Pow(m, 2) == m * (m * Pow(m, 1)) == m * m * m;
    PowAdd(m, 3, 3);
    PowAdd(m, 6, 6);
    PowAdd(m, 12, 12);
    PowAdd(m, 1, 24);
    PowAdd(m, 25, 25);
    PowAdd(m, 50, 50);
  }

  /** Powers of two with small exponents, evaluated a bit of the exponent at a time. */
  function Exp7(n: nat): nat { if n >= 64 then 0x1_0000_0000_0000_0000 * Exp6(n - 64) else Exp6(n) }
  function Exp6(n: nat): nat { if n >= 32 then 0x1_0000_0000 * Exp5(n - 32) else Exp5(n) }
  function Exp5(n: nat): nat { if n >= 16 then 0x1_0000 * Exp4(n - 16) else Exp4(n) }
  function Exp4(n: nat): nat { if n >= 8 then 0x100 * Exp3(n - 8) else Exp3(n) }
  function Exp3(n: nat): nat { if n >= 4 then 16 * Exp2(n - 4) else Exp2(n) }
  function Exp2(n: nat): nat { if n >= 2 then if n == 2 then 4 else 8 else if n == 0 then 1 else 2 }

  lemma Pow2Twice(n: nat, m: nat)
    requires n == 2 * m
    ensures Pow2(n) == Pow2(m) * Pow2(m)
  {
    Pow2Add(m, m);
  }

  lemma LargePowers()
    ensures Pow2(4) == 16 && Pow2(8) == 0x100 && Pow2(16) == 0x1_0000
    ensures Pow2(32) == 0x1_0000_0000 && Pow2(64) == 0x1_0000_0000_0000_0000
  {
    assert Pow2(4) == 16;
    hide Pow2;
    Pow2Twice(8, 4);
    Pow2Twice(16, 8);
    Pow2Twice(32, 16);
    Pow2Twice(64, 32);
  }

  lemma ExpIsPow2(n: nat)
    requires n < 128
    ensures Exp7(n) == Pow2(n)
  {
    hide Pow2, Exp5;
    var n6 := if n >= 64 then n - 64 else n;
    var n5 := if n6 >= 32 then n6 - 32 else n6;
    LargePowers();
    Pow2Add(64, n6);
    Pow2Add(32, n5);
    Exp5IsPow2(n5);
  }

  lemma Exp5IsPow2(n: nat)
    requires n < 32
    ensures Exp5(n) == Pow2(n)
  {
    hide Pow2, Exp3;
    var n4 := if n >= 16 then n - 16 else n;
    var n3 := if n4 >= 8 then n4 - 8 else n4;
    LargePowers();
    Pow2Add(16, n4);
    Pow2Add(8, n3);
    Exp3IsPow2(n3);
  }

  lemma Exp3IsPow2(n: nat)
    requires n < 8
    ensures Exp3(n) == Pow2(n)
  {
    Pow2Add(4, if n >= 4 then n - 4 else n);
    SmallExp(if n >= 4 then n - 4 else n);
  }

  lemma SmallExp(n: nat)
    requires n < 4
    ensures Exp2(n) == Pow2(n)
  {}

  /**
   * An entry t is right for index i to within one hundredth below and five above, over the whole interval it serves.
   */
  predicate EntryClose(i: nat, t: nat) {
    && Hundredth(32) * Exp7(t) <= 2 * Hundredth(32 + i)
    && Hundredth(33 + i) < Hundredth(32) * Exp7(t + 5)
  }

  lemma EntriesFrom0()
    ensures EntryClose(0, 0) && EntryClose(1, 4) && EntryClose(2, 9) && EntryClose(3, 13)
  {}

  lemma EntriesFrom4()
    ensures EntryClose(4, 17) && EntryClose(5, 21) && EntryClose(6, 25) && EntryClose(7, 29)
  {}

  lemma EntriesFrom8()
    ensures EntryClose(8, 32) && EntryClose(9, 36) && EntryClose(10, 39) && EntryClose(11, 43)
  {}

  lemma EntriesFrom12()
    ensures EntryClose(12, 46) && EntryClose(13, 49) && EntryClose(14, 52) && EntryClose(15, 55)
  {}

  lemma EntriesFrom16()
    ensures EntryClose(16, 58) && EntryClose(17, 61) && EntryClose(18, 64) && EntryClose(19, 67)
  {}

  lemma EntriesFrom20()
    ensures EntryClose(20, 70) && EntryClose(21, 73) && EntryClose(22, 75) && EntryClose(23, 78)
  {}

  lemma EntriesFrom24()
    ensures EntryClose(24, 81) && EntryClose(25, 83) && EntryClose(26, 86) && EntryClose(27, 88)
  {}

  lemma EntriesFrom28()
    ensures EntryClose(28, 91) && EntryClose(29, 93) && EntryClose(30, 95) && EntryClose(31, 98)
  {}

  lemma TableClose(i: nat)
    requires i < 32
    ensures EntryClose(i, Entry(i))
  {
    hide EntryClose;
    EntriesFrom0();
    EntriesFrom4();
    EntriesFrom8();
    EntriesFrom12();
    EntriesFrom16();
    EntriesFrom20();
    EntriesFrom24();
    EntriesFrom28();
  }

  /** The hundredth power of 32 + i lies within the powers of two that its table entry says. */
  lemma EntryBounds(i: nat)
    requires i < 32
    ensures Entry(i) <= 98
    ensures Pow2(500 + Entry(i)) <= 2 * Pow(32 + i, 100)
    ensures Pow(33 + i, 100) < Pow2(505 + Entry(i))
  {
    hide Hundredth, Exp7, Entry, Pow, Pow2;
    EntriesRise(0, i);
    var t := Entry(i);
    TableClose(i);
    HundredthIsPow(32);
    HundredthIsPow(32 + i);
    HundredthIsPow(33 + i);
    ExpIsPow2(t);
    ExpIsPow2(t + 5);
    ThirtyTwo();
    Pow2Add(500, t);
    Pow2Add(500, t + 5);
  }

  lemma ThirtyTwo()
    ensures Pow(32, 100) == Pow2(500)
  {
    assert Pow2(5) == 32;
    PowOfPow2(5, 100);
  }

  /** The result is less than 1 hundredth above and less than 5 hundredths below the true logarithm. */
  lemma Log2Close(x: nat)
    requires x > 0
    ensures Pow2(Log2Of(x)) <= 2 * Pow(x, 100)
    ensures Pow(x, 100) < Pow2(Log2Of(x) + 5)
  {
    hide Pow, Pow2, Entry, Index;
    var c, i := Top(x), Index(x);
    Mantissa(x);
    EntryBounds(i);
    if c <= 5 {
      LowClose(x, 32 + i, 5 - c, 500 + Entry(i), 505 + Entry(i), 100);
    } else {
      HighClose(x, 32 + i, c - 5, 500 + Entry(i), 505 + Entry(i), 100);
    }
  }

  lemma LowClose(x: nat, m: nat, d: nat, low: nat, high: nat, e: nat)
    requires m == x * Pow2(d) && d * e <= low <= high
    requires Pow2(low) <= 2 * Pow(m, e) && Pow(m + 1, e) < Pow2(high)
    ensures Pow2(low - d * e) <= 2 * Pow(x, e) && Pow(x, e) < Pow2(high - d * e)
  {
    hide Pow, Pow2;
    var p := Pow2(d * e);
    PowRises(m, m + 1, e);
    PowOfProduct(x, Pow2(d), e);
    PowOfPow2(d, e);
    Pow2Add(low - d * e, d * e);
    Pow2Add(high - d * e, d * e);
    Cancel(Pow2(low - d * e), 2 * Pow(x, e), p);
    Cancel(Pow2(high - d * e), Pow(x, e), p);
  }

  lemma HighClose(x: nat, m: nat, d: nat, low: nat, high: nat, e: nat)
    requires m * Pow2(d) <= x < (m + 1) * Pow2(d)
    requires Pow2(low) <= 2 * Pow(m, e) && Pow(m + 1, e) < Pow2(high)
    ensures Pow2(low + d * e) <= 2 * Pow(x, e) && Pow(x, e) < Pow2(high + d * e)
  {
    hide Pow, Pow2;
    var p := Pow2(d * e);
    PowRises(m * Pow2(d), x, e);
    PowRises(x, (m + 1) * Pow2(d), e);
    PowOfProduct(m, Pow2(d), e);
    PowOfProduct(m + 1, Pow2(d), e);
    PowOfPow2(d, e);
    Pow2Add(low, d * e);
    Pow2Add(high, d * e);
    Scaled(Pow2(low), 2 * Pow(m, e), p);
    Cancel(Pow2(high), Pow(m + 1, e), p);
  }

  lemma Scaled(a: nat, b: nat, p: nat)
    requires a <= b
    ensures a * p <= b * p
  {}

  lemma Cancel(a: nat, b: nat, p: nat)
    requires p > 0
    ensures a * p <= b * p <==> a <= b
  {
    if a > b {
      assert a * p == b * p + (a - b) * p;
    }
  }

  /* ---------- The other bases ---------- */

  function Log10Of(x: nat): nat {
    (100 * Log2Of(x) + 332 / 2) / 332
  }

  function LogOf(x: nat): nat {
    (100 * Log2Of(x) + 144 / 2) / 144
  }

  lemma OtherBasesRise(x: nat, y: nat)
    requires x <= y
    ensures Log10Of(x) <= Log10Of(y) && LogOf(x) <= LogOf(y)
  {
    Log2Rises(x, y);
  }

  /** Over thirty-two bits the decimal logarithm stays below 9.64. */
  lemma Log10Range(x: nat)
    requires x < 0x1_0000_0000
    ensures Log10Of(x) <= 963
  {
    if x > 0 {
      LargePowers();
      TopAtMost(x, 31);
      Log2Range(x);
    }
  }

  /* ---------- How close the decimal logarithm is ---------- */

  lemma {:induction false} PowOfPow(b: nat, m: nat, n: nat)
    ensures Pow(Pow(b, m), n) == Pow(b, m * n)
  {
    if n > 0 {
      PowOfPow(b, m, n - 1);
      PowAdd(b, m, m * (n - 1));
      assert m + m * (n - 1) == m * n;
    }
  }

  /** Powers of powers commute. */
  lemma PowsSwap(b: nat, m: nat, n: nat)
    ensures Pow(Pow(b, m), n) == Pow(Pow(b, n), m)
  {
    PowOfPow(b, m, n);
    PowOfPow(b, n, m);
    assert m * n == n * m;
  }

  lemma {:induction false} PowPositive(b: nat, e: nat)
    requires b > 0
    ensures Pow(b, e) > 0
  {
    if e > 0 {
      PowPositive(b, e - 1);
      Product(1, b, Pow(b, e - 1), Pow(b, e - 1));
    }
  }

  lemma {:induction false} PowStrict(a: nat, b: nat, e: nat)
    requires a < b && e > 0
    ensures Pow(a, e) < Pow(b, e)
  {
    if e == 1 {
      assert Pow(a, 1) == a * Pow(a, 0) && Pow(b, 1) == b * Pow(b, 0);
    } else {
      PowStrict(a, b, e - 1);
      Product(a, b, Pow(a, e - 1), Pow(b, e - 1));
      StrictProduct(a, b, Pow(a, e - 1), Pow(b, e - 1));
    }
  }

  lemma StrictProduct(a: nat, b: nat, c: nat, d: nat)
    requires a < b && c < d
    ensures a * c < b * d
  {
    Product(a, b, c, d - 1);
    assert b * d == b * (d - 1) + b;
  }

  lemma {:induction false} Pow2Rises(m: nat, n: nat)
    requires m <= n
    ensures Pow2(m) <= Pow2(n)
  {
    if m < n {
      Pow2Rises(m, n - 1);
    }
  }

  lemma TenTo2()
    ensures Pow(10, 2) == 100
  {
    assert Pow(10, 2) == 10 * Pow(10, 1) && Pow(10, 1) == 10 * Pow(10, 0);
  }

  lemma TenTo7()
    ensures Pow(10, 3) == 1000 && Pow(10, 7) == 10000000
  {
    assert Pow(10, 3) == 10 * Pow(10, 2) == 10 * (10 * Pow(10, 1)) == 1000;
    PowAdd(10, 3, 3);
    assert Pow(10, 7) == 10 * Pow(10, 6);
  }

  lemma TenTo28()
    ensures Pow(10, 28) == 10000000000000000000000000000
  {
    TenTo7();
    hide Pow;
    PowAdd(10, 7, 7);
    PowAdd(10, 14, 14);
  }

  lemma TenTo59()
    ensures Pow(10, 59) == 100000000000000000000000000000000000000000000000000000000000
  {
    TenTo7();
    TenTo28();
    hide Pow;
    PowAdd(10, 28, 28);
    PowAdd(10, 56, 3);
  }

  lemma TwoTo29And34()
    ensures Pow2(29) == 536870912 && Pow2(34) == 17179869184
  {
    ExpIsPow2(29);
    ExpIsPow2(34);
  }

  lemma TwoTo93And98()
    ensures Pow2(93) == 9903520314283042199192993792 && Pow2(98) == 316912650057057350374175801344
  {
    LargePowers();
    TwoTo29And34();
    hide Pow2;
    Pow2Add(64, 29);
    Pow2Add(64, 34);
  }

  /** Ten to the 28th lies above two to the 93rd, and ten to the 59th below two to the 196th. */
  lemma TenAndTwo()
    ensures Pow2(93) <= Pow(10, 28) && Pow(10, 59) <= Pow2(196)
  {
    hide Pow, Pow2;
    TenTo28();
    TenTo59();
    TwoTo93And98();
    Pow2Twice(196, 98);
  }

  /** From a power of two to one of ten, for a logarithm that is at most so much too high. */
  lemma TenBelow(q: nat, l: nat, y: nat)
    requires y > 0 && 196 * q <= 59 * l + 213 && Pow2(l) <= 2 * y
    ensures Pow(10, q) < 100 * y
  {
    hide Pow, Pow2;
    TenAndTwo();
    PowsSwap(10, 59, q);
    PowRises(Pow(10, 59), Pow2(196), q);
    PowOfPow2(196, q);
    Pow2Rises(196 * q, 59 * l + 213);
    Pow2Add(59 * l, 213);
    PowOfPow2(l, 59);
    assert 59 * l == l * 59;
    var ten := Pow(Pow(10, q), 59);
    assert ten <= Pow(Pow2(l), 59) * Pow2(213);
    PowRises(Pow2(l), 2 * y, 59);
    Scaled(Pow(Pow2(l), 59), Pow(2 * y, 59), Pow2(213));
    HundredAbove(y);
    if Pow(10, q) >= 100 * y {
      PowRises(100 * y, Pow(10, q), 59);
      assert false;
    }
  }

  lemma HundredAbove(y: nat)
    requires y > 0
    ensures Pow(2 * y, 59) * Pow2(213) < Pow(100 * y, 59)
  {
    assert Pow2(1) == 2 && Pow2(6) == 64;
    assert Pow2(273) == 2 * Pow2(272);
    hide Pow, Pow2;
    PowOfProduct(2, y, 59);
    PowOfProduct(100, y, 59);
    PowOfPow2(1, 59);
    PowOfPow2(6, 59);
    PowRises(64, 100, 59);
    Pow2Add(59, 213);
    Pow2Rises(273, 354);
    PowPositive(y, 59);
    var p := Pow(y, 59);
    assert Pow2(59) * p * Pow2(213) == Pow2(272) * p by {
      Commute(Pow2(59), p, Pow2(213));
    }
    LessScaled(Pow2(272), Pow(100, 59), p);
  }

  lemma Commute(a: nat, b: nat, c: nat)
    ensures a * b * c == a * c * b
  {}

  lemma LessScaled(a: nat, b: nat, p: nat)
    requires a < b && p > 0
    ensures a * p < b * p
  {}

  lemma TenAbove(q: nat, l: nat, y: nat)
    requires 28 * (l + 5) <= 93 * (q + 3) && y < Pow2(l + 5)
    ensures y < Pow(10, q + 3)
  {
    hide Pow, Pow2;
    TenAndTwo();
    PowsSwap(10, 28, q + 3);
    PowRises(Pow2(93), Pow(10, 28), q + 3);
    PowOfPow2(93, q + 3);
    PowOfPow2(l + 5, 28);
    Pow2Rises((l + 5) * 28, 93 * (q + 3));
    if Pow(10, q + 3) < Pow2(l + 5) {
      PowStrict(Pow(10, q + 3), Pow2(l + 5), 28);
      assert false;
    }
  }

  /** The decimal logarithm is less than 2 hundredths above and less than 3 hundredths below the true one. */
  lemma Log10Close(x: nat)
    requires 0 < x < 0x1_0000_0000
    ensures Pow(10, Log10Of(x)) < 100 * Pow(x, 100)
    ensures Pow(x, 100) < Pow(10, Log10Of(x) + 3)
  {
    hide Pow, Pow2, Log2Of;
    Log2Close(x);
    Log10Range(x);
    PowPositive(x, 100);
    var q, l := Log10Of(x), Log2Of(x);
    assert 332 * q <= 100 * l + 166 <= 332 * q + 331;
    TenBelow(q, l, Pow(x, 100));
    TenAbove(q, l, Pow(x, 100));
  }

  /** At a power of ten it lies within two hundredths below and one above the exponent. */
  lemma {:induction false} Log10AtDecade(k: nat)
    requires k <= 9
    ensures 0 < Pow(10, k) < 0x1_0000_0000 && 100 * k - 2 <= Log10Of(Pow(10, k)) <= 100 * k + 1
  {
    DecadeInRange(k);
    hide Pow, Log10Of;
    Log10Close(Pow(10, k));
    PowOfPow(10, k, 100);
    Between10(Log10Of(Pow(10, k)), k * 100);
  }

  lemma Between10(q: nat, e: nat)
    requires Pow(10, q) < 100 * Pow(10, e) && Pow(10, e) < Pow(10, q + 3)
    ensures e - 2 <= q <= e + 1
  {
    TenTo2();
    hide Pow;
    PowAdd(10, 2, e);
    if q >= e + 2 {
      PowMore(10, 2 + e, q);
      assert false;
    }
    if q + 3 <= e {
      PowMore(10, q + 3, e);
      assert false;
    }
  }

  lemma {:induction false} PowMore(b: nat, m: nat, n: nat)
    requires b > 0 && m <= n
    ensures Pow(b, m) <= Pow(b, n)
  {
    if m < n {
      PowMore(b, m, n - 1);
      Product(1, b, Pow(b, n - 1), Pow(b, n - 1));
    }
  }

  lemma DecadeInRange(k: nat)
    requires k <= 9
    ensures 0 < Pow(10, k) < 0x1_0000_0000
  {
    PowMore(10, 0, k);
    PowMore(10, k, 9);
    TenTo7();
    TenTo2();
    PowAdd(10, 2, 7);
  }
}
