/**
 Amounts: integer units shown as a double and read back. Decimal strings denote exact
 rationals; rounding to a double is to nearest, ties to even (section 4.3.1 of IEEE 754-2019),
 and the way back rounds to the nearest integer number of units, ties up
 (`toFixed`, section 21.1.3.3 of ECMA-262).
 */
module Amount {
  import opened Base
  import opened Ledger

  const TWO52: nat := 0x10_0000_0000_0000

  /** A finite non-negative double: the value m * 2^e, with m <= 2^53. */
  datatype Double = Double(m: nat, e: int)

  function Decimals(token: Token): nat {
    match token
    case TON => 9
    case USDT => 6
    case NOT => 9
  }

  function Unit(token: Token): (u: nat)
    ensures u > 0
  {
    match token
    case TON => 1_000_000_000
    case USDT => 1_000_000
    case NOT => 1_000_000_000
  }

  function Pow10(n: nat): nat {
    if n == 0 then 1 else 10 * Pow10(n - 1)
  }

  lemma UnitIsPowerOfTen(token: Token)
    ensures Unit(token) == Pow10(Decimals(token))
  {
    assert Pow10(3) == 1000;
    assert Pow10(6) == 1_000_000;
    assert Pow10(9) == 1_000_000_000;
  }

  function Pow2(n: nat): (p: nat)
    ensures p > 0
  {
    if n == 0 then 1 else 2 * Pow2(n - 1)
  }

  /** num / den rounded to an integer, ties to even. */
  function RoundEven(num: nat, den: nat): (m: nat)
    requires den > 0
    ensures -(den as int) <= 2 * (m * den - num) <= den
  {
    var q, r := num / den, num % den;
    assert num == q * den + r;
    assert (q + 1) * den == q * den + den;
    if 2 * r < den || (2 * r == den && q % 2 == 0) then q else q + 1
  }

  /** num / den too large for the exponent: halve it and count up. */
  function RoundLarge(num: nat, den: nat, e: nat): Double
    requires den > 0 && num >= TWO52 * den
    decreases num - den
  {
    if num < 2 * TWO52 * den then Double(RoundEven(num, den), e)
    else RoundLarge(num, 2 * den, e + 1)
  }

  /** num / den too small for the exponent: double it and count down. */
  function RoundSmall(num: nat, den: nat, e: int): Double
    requires den > 0 && 0 < num < 2 * TWO52 * den
    decreases 2 * TWO52 * den - num
  {
    if num >= TWO52 * den then Double(RoundEven(num, den), e)
    else RoundSmall(2 * num, den, e - 1)
  }

  /** The double nearest to num / den. */
  function Nearest(num: nat, den: nat): Double
    requires den > 0
  {
    if num == 0 then Double(0, 0)
    else if num >= TWO52 * den then RoundLarge(num, den, 0)
    else RoundSmall(num, den, 0)
  }

  function Format(units: nat, token: Token): Double {
    Nearest(units, Unit(token))
  }

  /** The integer n for which n / unit is nearest to the double, the larger one on a tie. */
  function Parse(x: Double, token: Token): nat {
    if x.e >= 0 then x.m * Pow2(x.e) * Unit(token)
    else
      var half := Pow2(-x.e);
      (2 * (x.m * Unit(token)) + half) / (2 * half)
  }

  // ---------------------------------------------------------------- Nearest is the nearest double

  function Scale(e: int): (r: real)
    ensures r > 0.0
    decreases if e < 0 then -e else e
  {
    if e == 0 then 1.0 else if e > 0 then 2.0 * Scale(e - 1) else Scale(e + 1) / 2.0
  }

  function Value(x: Double): real {
    x.m as real * Scale(x.e)
  }

  function Distance(a: real, b: real): real {
    if a <= b then b - a else a - b
  }

  lemma ScaleStep(e: int)
    ensures Scale(e + 1) == 2.0 * Scale(e)
  {
  }

  lemma TimesTwo(half: real, r: real, s: real, t: real, u: real)
    requires r == 2.0 * half && half * s == t && u == 2.0 * t
    ensures r * s == u
  {
    assert r * s == 2.0 * (half * s);
  }

  lemma {:induction false} ScaleBy(e: int, k: nat, r: real, s: real)
    requires r == Pow2(k) as real && s == Scale(e)
    ensures r * s == Scale(e + k)
  {
    if k == 0 {
      assert r == 1.0;
    } else {
      var half := Pow2(k - 1) as real;
      ScaleBy(e, k - 1, half, s);
      ScaleStep(e + k - 1);
      TimesTwo(half, r, s, Scale(e + k - 1), Scale(e + k));
    }
  }

  lemma ScaleUp(e: int, k: nat)
    ensures Scale(e + k) == Pow2(k) as real * Scale(e)
  {
    ScaleBy(e, k, Pow2(k) as real, Scale(e));
  }

  // Order and products over the reals, one step at a time.

  lemma IntProduct(a: int, b: int)
    ensures (a * b) as real == a as real * b as real
  {
  }

  lemma ScaleOrder(a: real, b: real, s: real)
    requires s > 0.0 && a <= b
    ensures a * s <= b * s
  {
  }

  lemma ScaleStrict(a: real, b: real, s: real)
    requires s > 0.0 && a < b
    ensures a * s < b * s
  {
  }

  lemma CancelOrder(a: real, b: real, s: real)
    requires s > 0.0 && a * s <= b * s
    ensures a <= b
  {
    if b < a {
      ScaleStrict(b, a, s);
      assert false;
    }
  }

  lemma Swap(y: real, s: real, d: real)
    ensures (y * s) * d == (y * d) * s
  {
  }

  lemma HalfApart(m: real, y: real, d: real, md: real, yd: real)
    requires d > 0.0 && md == m * d && yd == y * d && -d <= 2.0 * (md - yd) <= d
    ensures Distance(m, y) <= 0.5
  {
    var p := m - y;
    var pd := p * d;
    assert pd == md - yd;
    assert 2.0 * pd <= d && -d <= 2.0 * pd;
    CancelOrder(2.0 * p, 1.0, d);
    CancelOrder(-1.0, 2.0 * p, d);
  }

  lemma HalfFrom(m: int, num: int, den: int, y: real)
    requires den > 0 && y * den as real == num as real
    requires -den <= 2 * (m * den - num) <= den
    ensures Distance(m as real, y) <= 0.5
  {
    IntProduct(m, den);
    HalfFromProduct(m, num, den, m * den, y);
  }

  lemma HalfFromProduct(m: int, num: int, den: int, k: int, y: real)
    requires den > 0 && y * den as real == num as real
    requires k as real == m as real * den as real && -den <= 2 * (k - num) <= den
    ensures Distance(m as real, y) <= 0.5
  {
    HalfApart(m as real, y, den as real, k as real, num as real);
  }

  lemma DistanceScales(a: real, b: real, s: real)
    requires s > 0.0
    ensures Distance(a * s, b * s) == Distance(a, b) * s
  {
    if a <= b {
      assert a * s <= b * s;
    } else {
      assert b * s <= a * s;
    }
  }

  lemma ScaleNearer(m: real, z: real, y: real, s: real)
    requires s > 0.0 && Distance(m, y) <= Distance(z, y)
    ensures Distance(m * s, y * s) <= Distance(z * s, y * s)
  {
    DistanceScales(m, y, s);
    DistanceScales(z, y, s);
    ScaleOrder(Distance(m, y), Distance(z, y), s);
  }

  lemma FartherBelow(a: real, c: real, z: real, y: real)
    requires Distance(a, y) <= Distance(c, y) && z <= c <= y
    ensures Distance(a, y) <= Distance(z, y)
  {
  }

  lemma LargerExponent(other: Double, e: int) returns (k: nat)
    requires other.e >= e
    ensures Value(other) == k as real * Scale(e)
  {
    var p := Pow2(other.e - e);
    k := other.m * p;
    ScaleUp(e, other.e - e);
    var m, q, s := other.m as real, p as real, Scale(e);
    assert k as real == m * q;
    assert m * (q * s) == (m * q) * s;
  }

  lemma PowTwo(k: nat)
    requires k > 0
    ensures Pow2(k) >= 2
  {
  }

  lemma ScaleRatio(low: int, high: int) returns (p: nat)
    requires low < high
    ensures p >= 2 && Scale(high) == p as real * Scale(low)
  {
    p := Pow2(high - low);
    ScaleUp(low, high - low);
    PowTwo(high - low);
  }

  lemma SmallerExponent(other: Double, e: int, s: real, t: real)
    requires other.e < e && other.m <= 2 * TWO52 && s == Scale(e) && t == Scale(other.e)
    ensures other.m as real * t <= TWO52 as real * s
  {
    var p := ScaleRatio(other.e, e);
    Halved(other.m as real, TWO52 as real, s, t, p as real);
  }

  lemma Halved(m: real, c: real, s: real, t: real, p: real)
    requires t > 0.0 && p >= 2.0 && m <= 2.0 * c && c > 0.0 && s == p * t
    ensures m * t <= c * s
  {
    ScaleOrder(2.0, p, t);
    ScaleOrder(2.0 * t, s, c);
    ScaleOrder(m, 2.0 * c, t);
    assert (2.0 * c) * t == (2.0 * t) * c;
  }

  /** On the grid of 2^e a double is a multiple, or it lies at or below 2^52 of them. */
  lemma OnGridOrBelow(other: Double, e: int) returns (onGrid: bool, k: nat)
    requires other.m <= 2 * TWO52
    ensures onGrid ==> Value(other) == k as real * Scale(e)
    ensures !onGrid ==> Value(other) <= TWO52 as real * Scale(e)
  {
    onGrid, k := other.e >= e, 0;
    if onGrid {
      k := LargerExponent(other, e);
    } else {
      SmallerExponent(other, e, Scale(e), Scale(other.e));
    }
  }

  lemma IntegerFarther(m: int, k: int, y: real)
    requires Distance(m as real, y) <= 0.5
    ensures Distance(m as real, y) <= Distance(k as real, y)
  {
    if m < k {
      assert m as real + 1.0 <= k as real;
    } else if k < m {
      assert k as real + 1.0 <= m as real;
    }
  }

  lemma CloserThanInteger(m: int, k: int, z: real, y: real, s: real)
    requires s > 0.0 && Distance(m as real, y) <= 0.5 && z == k as real * s
    ensures Distance(m as real * s, y * s) <= Distance(z, y * s)
  {
    IntegerFarther(m, k, y);
    var mr, kr := m as real, k as real;
    ScaleNearer(mr, kr, y, s);
    assert z == kr * s;
  }

  lemma CloserThanSmall(m: real, c: real, z: real, y: real, s: real)
    requires s > 0.0 && c <= y && Distance(m, y) <= Distance(c, y) && z <= c * s
    ensures Distance(m * s, y * s) <= Distance(z, y * s)
  {
    ScaleOrder(c, y, s);
    ScaleNearer(m, c, y, s);
    FartherBelow(m * s, c * s, z, y * s);
  }

  lemma Mantissa(num: nat, den: nat, m: int) returns (y: real)
    requires den > 0 && TWO52 * den <= num < 2 * TWO52 * den
    requires -(den as int) <= 2 * (m * den - num) <= den
    ensures y * den as real == num as real && TWO52 as real <= y && Distance(m as real, y) <= 0.5
  {
    y := num as real / den as real;
    Quotient(num as real, den as real);
    ScaleRange(num, den, y);
    HalfFrom(m, num, den, y);
  }

  lemma InRange(num: nat, den: nat, m: int, s: real, x: real, onGrid: bool, k: int, z: real, v: real)
    requires den > 0 && TWO52 * den <= num < 2 * TWO52 * den && s > 0.0 && x * den as real == num as real * s
    requires onGrid ==> z == k as real * s
    requires !onGrid ==> z <= TWO52 as real * s
    requires -(den as int) <= 2 * (m * den - num) <= den
    requires v == m as real * s
    ensures Distance(v, x) <= Distance(z, x)
  {
    var y := Mantissa(num, den, m);
    Closest(m, num as real, den as real, s, x, y, onGrid, k, z);
  }

  /** With y between 2^52 and 2^53 rounded to m, nothing on the grid or below it is nearer to y * s than m * s. */
  lemma Closest(m: int, num: real, den: real, s: real, x: real, y: real, onGrid: bool, k: int, z: real)
    requires den > 0.0 && s > 0.0 && y * den == num && x * den == num * s
    requires TWO52 as real <= y && Distance(m as real, y) <= 0.5
    requires onGrid ==> z == k as real * s
    requires !onGrid ==> z <= TWO52 as real * s
    ensures Distance(m as real * s, x) <= Distance(z, x)
  {
    Rescale(num, den, x, y, s);
    if onGrid {
      CloserThanInteger(m, k, z, y, s);
    } else {
      CloserThanSmall(m as real, TWO52 as real, z, y, s);
    }
  }

  lemma Rescale(a: real, d: real, x: real, y: real, s: real)
    requires d > 0.0 && y * d == a && x * d == a * s
    ensures x == y * s
  {
    Swap(y, s, d);
    CancelOrder(x, y * s, d);
    CancelOrder(y * s, x, d);
  }

  lemma Quotient(a: real, d: real)
    requires d > 0.0
    ensures (a / d) * d == a
  {
  }

  lemma ScaleRange(num: nat, den: nat, y: real)
    requires den > 0 && TWO52 * den <= num < 2 * TWO52 * den && y * den as real == num as real
    ensures TWO52 as real <= y < 2.0 * TWO52 as real
  {
    var c, d := TWO52 as real, den as real;
    IntProduct(TWO52, den);
    CancelOrder(c, y, d);
    if 2.0 * c <= y {
      ScaleOrder(2.0 * c, y, d);
      assert false;
    }
  }

  // ---------------------------------------------------------------- what Nearest computes

  lemma Doubled(num: nat, p: nat)
    requires p > 0
    ensures num * (2 * p) == (2 * num) * p && num <= num * p
  {
  }

  lemma {:induction false} SmallAt(num: nat, den: nat, e: int, t: nat)
    requires den > 0 && 0 < num && TWO52 * den <= num * Pow2(t) < 2 * TWO52 * den
    ensures num < 2 * TWO52 * den
    ensures RoundSmall(num, den, e) == Double(RoundEven(num * Pow2(t), den), e - t)
    decreases t
  {
    Doubled(num, Pow2(t));
    if t == 0 {
      assert num * Pow2(0) == num;
    } else {
      Doubled(num, Pow2(t - 1));
      Doubled(2 * num, Pow2(t - 1));
      SmallAt(2 * num, den, e - 1, t - 1);
    }
  }

  lemma {:induction false} FindShift(num: nat, den: nat) returns (t: nat)
    requires den > 0 && 0 < num < 2 * TWO52 * den
    ensures TWO52 * den <= num * Pow2(t) < 2 * TWO52 * den
    decreases 2 * TWO52 * den - num
  {
    if num >= TWO52 * den {
      t := 0;
    } else {
      t := FindShift(2 * num, den);
      Doubled(num, Pow2(t));
      t := t + 1;
    }
  }

  lemma {:induction false} FindDivisor(num: nat, den: nat, e: nat) returns (t: nat)
    requires den > 0 && num >= TWO52 * den
    ensures TWO52 * (den * Pow2(t)) <= num < 2 * TWO52 * (den * Pow2(t))
    ensures RoundLarge(num, den, e) == Double(RoundEven(num, den * Pow2(t)), e + t)
    decreases num - den
  {
    if num < 2 * TWO52 * den {
      t := 0;
    } else {
      t := FindDivisor(num, 2 * den, e + 1);
      Doubled(den, Pow2(t));
      t := t + 1;
    }
  }

  lemma InRangeDouble(num: nat, den: nat, m: nat, e: int, x: real, other: Double)
    requires den > 0 && TWO52 * den <= num < 2 * TWO52 * den && x * den as real == num as real * Scale(e)
    requires -(den as int) <= 2 * (m * den - num) <= den && other.m <= 2 * TWO52
    ensures Distance(Value(Double(m, e)), x) <= Distance(Value(other), x)
  {
    var onGrid, k := OnGridOrBelow(other, e);
    InRange(num, den, m, Scale(e), x, onGrid, k, Value(other), Value(Double(m, e)));
  }

  lemma Spread(x: real, den: real, num: real, p: real, s: real)
    requires x * den == num && p * s == 1.0
    ensures x * den == (num * p) * s
  {
    assert (num * p) * s == num * (p * s);
  }

  lemma SmallClosest(num: nat, den: nat, x: real, other: Double)
    requires den > 0 && 0 < num < 2 * TWO52 * den && x * den as real == num as real && other.m <= 2 * TWO52
    ensures Distance(Value(RoundSmall(num, den, 0)), x) <= Distance(Value(other), x)
  {
    var t := FindShift(num, den);
    SmallAt(num, den, 0, t);
    SpreadUp(x, num, den, t);
    var n := num * Pow2(t);
    InRangeDouble(n, den, RoundEven(n, den), -(t as int), x, other);
  }

  lemma SpreadUp(x: real, num: nat, den: nat, t: nat)
    requires x * den as real == num as real
    ensures x * den as real == (num * Pow2(t)) as real * Scale(-(t as int))
  {
    var e: int := -(t as int);
    ScaleUp(e, t);
    IntProduct(num, Pow2(t));
    Spread(x, den as real, num as real, Pow2(t) as real, Scale(e));
  }

  lemma SpreadDen(x: real, den: real, num: real, p: real)
    requires x * den == num
    ensures x * (den * p) == num * p
  {
    assert x * (den * p) == (x * den) * p;
  }

  lemma SpreadByPow(x: real, num: nat, den: nat, t: nat, d: nat)
    requires x * den as real == num as real && d == den * Pow2(t)
    ensures x * d as real == num as real * Scale(t)
  {
    ScaleUp(0, t);
    IntProduct(den, Pow2(t));
    SpreadDen(x, den as real, num as real, Pow2(t) as real);
  }

  lemma LargeClosest(num: nat, den: nat, x: real, other: Double)
    requires den > 0 && num >= TWO52 * den && x * den as real == num as real && other.m <= 2 * TWO52
    ensures Distance(Value(RoundLarge(num, den, 0)), x) <= Distance(Value(other), x)
  {
    var t := FindDivisor(num, den, 0);
    LargeAt(num, den, den * Pow2(t), t, x, other);
  }

  lemma LargeAt(num: nat, den: nat, d: nat, t: nat, x: real, other: Double)
    requires den > 0 && d == den * Pow2(t) && TWO52 * d <= num < 2 * TWO52 * d
    requires x * den as real == num as real && other.m <= 2 * TWO52
    ensures d > 0 && Distance(Value(Double(RoundEven(num, d), t)), x) <= Distance(Value(other), x)
  {
    Doubled(den, Pow2(t));
    SpreadByPow(x, num, den, t, d);
    InRangeDouble(num, d, RoundEven(num, d), t, x, other);
  }

  /** `Nearest` meets its name: no double is nearer to num / den. */
  lemma NearestIsClosest(num: nat, den: nat, x: real, other: Double)
    requires den > 0 && x * den as real == num as real && other.m <= 2 * TWO52
    ensures Distance(Value(Nearest(num, den)), x) <= Distance(Value(other), x)
  {
    if num == 0 {
      CancelOrder(x, 0.0, den as real);
      CancelOrder(0.0, x, den as real);
    } else if num >= TWO52 * den {
      LargeClosest(num, den, x, other);
    } else {
      SmallClosest(num, den, x, other);
    }
  }

  /** An amount is shown as the double nearest to its units over ten to the token's decimals. */
  lemma FormatIsClosest(units: nat, token: Token, x: real, other: Double)
    requires x * Pow10(Decimals(token)) as real == units as real && other.m <= 2 * TWO52
    ensures Distance(Value(Format(units, token)), x) <= Distance(Value(other), x)
  {
    UnitIsPowerOfTen(token);
    NearestIsClosest(units, Unit(token), x, other);
  }

  /** Halfway between two integers the even one is taken. */
  lemma TiesToEven(num: nat, den: nat, q: nat)
    requires den > 0 && 2 * num == (2 * q + 1) * den
    ensures RoundEven(num, den) == if q % 2 == 0 then q else q + 1
  {
    assert (2 * q + 1) * den == 2 * (q * den) + den;
    assert q * den <= num < q * den + den;
    DivUnique(num, den, q);
    assert num == q * den + num % den;
  }

  // ---------------------------------------------------------------- the round trip

  /** The largest amount up to which every amount survives the round trip. */
  function Limit(token: Token): nat {
    match token
    case TON => 0x80_0000 * 1_000_000_000
    case USDT => 0x2_0000_0000 * 1_000_000
    case NOT => 0x80_0000 * 1_000_000_000
  }

  /** How many doublings bring an amount at the limit into mantissa range. */
  function LimitShift(token: Token): nat {
    match token
    case TON => 29
    case USDT => 19
    case NOT => 29
  }

  lemma {:induction false} Pow2Monotone(a: nat, b: nat)
    requires a <= b
    ensures Pow2(a) <= Pow2(b)
  {
    if a < b {
      Pow2Monotone(a, b - 1);
    }
  }

  lemma Pow2Values()
    ensures Pow2(19) == 0x8_0000 && Pow2(20) == 0x10_0000
    ensures Pow2(29) == 0x2000_0000 && Pow2(30) == 0x4000_0000
  {
    assert Pow2(5) == 32;
    assert Pow2(10) == 1024;
    assert Pow2(15) == 32768;
    assert Pow2(20) == 0x10_0000;
    assert Pow2(25) == 0x200_0000;
  }

  /** When m * u is less than half of p away from units * p, dividing by p and rounding gives units. */
  lemma RoundsBack(units: nat, u: nat, p: nat, m: nat)
    requires p > 0 && -(p as int) <= 2 * (m * u - units * p) < p
    ensures (2 * (m * u) + p) / (2 * p) == units
  {
    var n := 2 * (m * u) + p;
    assert n - units * (2 * p) == 2 * (m * u - units * p) + p;
    DivUnique(n, 2 * p, units);
  }

  lemma RoundEvenExact(num: nat, den: nat, q: nat)
    requires den > 0 && num == q * den
    ensures RoundEven(num, den) == q
  {
    DivUnique(num, den, q);
  }

  lemma BackExact(units: nat, token: Token, t: nat)
    requires t > 0
    requires Pow2(t) > Unit(token) || units * Pow2(t) == TWO52 * Unit(token)
    ensures Parse(Double(RoundEven(units * Pow2(t), Unit(token)), 0 - t), token) == units
  {
    var u, p := Unit(token), Pow2(t);
    if units * p == TWO52 * u {
      RoundEvenExact(units * p, u, TWO52);
    }
    RoundsBack(units, u, p, RoundEven(units * p, u));
  }

  /** Every amount up to the limit is read back exactly. */
  lemma RoundTrip(units: nat, token: Token)
    requires units <= Limit(token)
    ensures Parse(Format(units, token), token) == units
  {
    if units == 0 {
      assert Format(0, token) == Double(0, 0);
    } else {
      var t := FindShift(units, Unit(token));
      ShiftAtLimit(units, token, t);
      SmallAt(units, Unit(token), 0, t);
      BackExact(units, token, t);
    }
  }

  lemma ShiftAtLimit(units: nat, token: Token, t: nat)
    requires 0 < units <= Limit(token) && TWO52 * Unit(token) <= units * Pow2(t)
    ensures t > 0
    ensures Pow2(t) > Unit(token) || units * Pow2(t) == TWO52 * Unit(token)
  {
    Pow2Values();
    match token
    case TON => ShiftAt(units, 1_000_000_000, 0x80_0000, 29, t);
    case USDT => ShiftAt(units, 1_000_000, 0x2_0000_0000, 19, t);
    case NOT => ShiftAt(units, 1_000_000_000, 0x80_0000, 29, t);
  }

  lemma ShiftAt(units: nat, unit: nat, ratio: nat, s: nat, t: nat)
    requires 0 < unit && s > 0 && ratio * Pow2(s) == TWO52 && Pow2(s + 1) > unit
    requires units <= ratio * unit && TWO52 * unit <= units * Pow2(t)
    ensures t > 0
    ensures Pow2(t) > unit || units * Pow2(t) == TWO52 * unit
  {
    var limit := ratio * unit;
    var full := TWO52 * unit;
    FullShift(unit, ratio, Pow2(s));
    MulMono(units, limit, Pow2(t));
    if t < s {
      Pow2Monotone(t, s - 1);
      MulMono(Pow2(t), Pow2(s - 1), limit);
      TwiceLess(limit, Pow2(s - 1), Pow2(s), full);
      assert false;
    } else if s < t {
      Pow2Monotone(s + 1, t);
    }
  }

  lemma FullShift(unit: nat, ratio: nat, p: nat)
    requires ratio * p == TWO52
    ensures (ratio * unit) * p == TWO52 * unit
  {
    assert (ratio * unit) * p == (ratio * p) * unit;
  }

  lemma TwiceLess(limit: nat, half: nat, p: nat, full: nat)
    requires p == 2 * half && full == limit * p && full > 0
    ensures limit * half < full
  {
    assert full == 2 * (limit * half);
  }

  lemma RoundEvenNear(num: nat, den: nat, q: nat)
    requires den > 0 && -(den as int) < 2 * (q * den - num) < den
    ensures RoundEven(num, den) == q
  {
    var m := RoundEven(num, den);
    assert (q + 1) * den == q * den + den && (m + 1) * den == m * den + den;
    MulMono(q + 1, m, den);
    MulMono(m + 1, q, den);
  }

  /** Both amounts right after the limit round to the next double. */
  lemma PastLimit(token: Token, extra: nat)
    requires 1 <= extra <= 2
    ensures Format(Limit(token) + extra, token) == Double(TWO52 + 1, -(LimitShift(token) as int))
  {
    Pow2Values();
    match token
    case TON => PastLimitAt(1_000_000_000, 0x80_0000, 29, 0x2000_0000, extra);
    case USDT => PastLimitAt(1_000_000, 0x2_0000_0000, 19, 0x8_0000, extra);
    case NOT => PastLimitAt(1_000_000_000, 0x80_0000, 29, 0x2000_0000, extra);
  }

  lemma PastLimitAt(unit: nat, ratio: nat, s: nat, p: nat, extra: nat)
    requires unit > 0 && p == Pow2(s) && 2 <= p && ratio * p == TWO52
    requires 0 < extra * p && -(unit as int) < 2 * (unit - extra * p) < unit
    ensures Nearest(ratio * unit + extra, unit) == Double(TWO52 + 1, -(s as int))
  {
    var limit := ratio * unit;
    FullShift(unit, ratio, p);
    assert (limit + extra) * p == limit * p + extra * p;
    JustAbove(limit + extra, unit, s, p, (limit + extra) * p);
  }

  lemma JustAbove(v: nat, unit: nat, s: nat, p: nat, vp: nat)
    requires unit > 0 && p == Pow2(s) && 2 <= p && vp == v * p && TWO52 * unit < vp
    requires -(unit as int) < 2 * (TWO52 * unit + unit - vp) < unit
    ensures Nearest(v, unit) == Double(TWO52 + 1, -(s as int))
  {
    MulMono(2, p, v);
    assert 2 * v <= vp < 2 * TWO52 * unit;
    assert v > 0;
    SmallAt(v, unit, 0, s);
    assert (TWO52 + 1) * unit == TWO52 * unit + unit;
    RoundEvenNear(vp, unit, TWO52 + 1);
  }

  /** The two amounts after the limit are shown as one and the same double. */
  lemma CollisionPastLimit(token: Token)
    ensures Format(Limit(token) + 1, token) == Format(Limit(token) + 2, token)
  {
    PastLimit(token, 1);
    PastLimit(token, 2);
  }

  ghost predicate SafeUpTo(bound: nat, token: Token) {
    forall units: nat :: units <= bound ==> Parse(Format(units, token), token) == units
  }

  /** The exact bound: all amounts up to `bound` survive the round trip iff `bound` is at most the limit. */
  lemma ExactBound(bound: nat, token: Token)
    ensures SafeUpTo(bound, token) <==> bound <= Limit(token)
  {
    if bound <= Limit(token) {
      forall units: nat | units <= bound ensures Parse(Format(units, token), token) == units {
        RoundTrip(units, token);
      }
    } else {
      LimitIsTight(token);
    }
  }

  lemma LimitIsTight(token: Token)
    ensures Parse(Format(Limit(token) + 1, token), token) != Limit(token) + 1
  {
    Pow2Values();
    PastLimit(token, 1);
  }

  /** 2^52 is below the limit of every token. */
  lemma RoundTripBelow52(units: nat, token: Token)
    requires units < TWO52
    ensures Parse(Format(units, token), token) == units
  {
    RoundTrip(units, token);
  }

  // ---------------------------------------------------------------- the number shown decides the amount

  lemma WithinHalf(y: real, v: real, half: real, yh: real, k: real)
    requires half > 0.0 && v * half == k && yh == y * half
    requires 2.0 * yh <= 2.0 * k + half < 2.0 * yh + 2.0 * half
    ensures y - 0.5 <= v < y + 0.5
  {
    CancelOrder(y - 0.5, v, half);
    if y + 0.5 <= v {
      ScaleOrder(y + 0.5, v, half);
      assert false;
    }
  }

  lemma HalfUp(k: nat, half: nat, n: nat)
    requires half > 0 && n == (2 * k + half) / (2 * half)
    ensures 2 * (n * half) <= 2 * k + half < 2 * (n * half) + 2 * half
  {
    var num, den := 2 * k + half, 2 * half;
    assert num == n * den + num % den;
    assert n * den == 2 * (n * half);
  }

  lemma Shrunk(m: real, s: real, u: real, half: real, v: real)
    requires half * s == 1.0 && v == m * s
    ensures (v * u) * half == m * u
  {
    assert (v * u) * half == (m * u) * (half * s);
  }

  /** `Parse` reads any double as the nearest number of units, the larger one on a tie. */
  lemma ParseMeaning(x: Double, token: Token)
    ensures Parse(x, token) as real - 0.5 <= Value(x) * Unit(token) as real < Parse(x, token) as real + 0.5
  {
    if x.e >= 0 {
      ParseWhole(x.m, x.e, Unit(token), Parse(x, token), Value(x));
    } else {
      ParseFraction(x.m, -x.e, Unit(token), Parse(x, token), Value(x));
    }
  }

  lemma ParseWhole(m: nat, e: nat, u: nat, n: nat, v: real)
    requires n == m * Pow2(e) * u && v == m as real * Scale(e)
    ensures v * u as real == n as real
  {
    ScaleUp(0, e);
    WholeProduct(m, Pow2(e), u, m * Pow2(e), n, v);
  }

  lemma WholeProduct(m: nat, p: nat, u: nat, mp: nat, n: nat, v: real)
    requires mp == m * p && n == mp * u && v == m as real * p as real
    ensures v * u as real == n as real
  {
    IntProduct(m, p);
    IntProduct(mp, u);
  }

  lemma ParseFraction(m: nat, t: nat, u: nat, n: nat, v: real)
    requires n == (2 * (m * u) + Pow2(t)) / (2 * Pow2(t)) && v == m as real * Scale(0 - t)
    ensures n as real - 0.5 <= v * u as real < n as real + 0.5
  {
    var half, k := Pow2(t), m * u;
    HalfUp(k, half, n);
    ScaleUp(0 - t, t);
    FractionOf(m, u, half, k, Scale(0 - t), n, v, v * u as real, n * half);
  }

  lemma FractionOf(m: nat, u: nat, half: nat, k: nat, s: real, n: nat, v: real, vu: real, nh: nat)
    requires half > 0 && half as real * s == 1.0 && v == m as real * s && vu == v * u as real
    requires k == m * u && nh == n * half && 2 * nh <= 2 * k + half < 2 * nh + 2 * half
    ensures n as real - 0.5 <= vu < n as real + 0.5
  {
    IntProduct(m, u);
    Shrunk(m as real, s, u as real, half as real, v);
    Fraction(n, vu, half, k, nh);
  }

  lemma Fraction(n: nat, v: real, half: nat, k: nat, nh: nat)
    requires half > 0 && nh == n * half && v * half as real == k as real
    requires 2 * nh <= 2 * k + half < 2 * nh + 2 * half
    ensures n as real - 0.5 <= v < n as real + 0.5
  {
    IntProduct(n, half);
    WithinHalf(n as real, v, half as real, nh as real, k as real);
  }

  /** No two amounts up to the limit are shown as the same number, in whatever form. */
  lemma FormatInjective(a: nat, b: nat, token: Token)
    requires a <= Limit(token) && b <= Limit(token) && Value(Format(a, token)) == Value(Format(b, token))
    ensures a == b
  {
    RoundTrip(a, token);
    RoundTrip(b, token);
    ParseMeaning(Format(a, token), token);
    ParseMeaning(Format(b, token), token);
  }
}
