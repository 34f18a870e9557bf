/** The base field of the packed relations: integers modulo `P`, and the proof that `P` is prime. */
module Modulus {

  const P: int := 0x1_0000_0000_0000_0000_0000_0000_0000_0000 - 0xffff_a7f7

  ghost predicate Divides(d: int, n: int)
    requires d > 0
  {
    n % d == 0
  }

  ghost predicate IsPrime(n: int) {
    n > 1 && forall d: int {:trigger Divides(d, n)} :: 1 < d < n ==> !Divides(d, n)
  }

  // ----- congruences -----

  ghost predicate Congruent(n: int, x: int, y: int)
    requires n > 0
  {
    (x - y) % n == 0
  }

  /** A nonzero multiple of `n` is at least `n` away from zero. */
  lemma Scale(k: int, n: int)
    requires n > 0
    ensures k >= 1 ==> k * n >= n
    ensures k <= -1 ==> k * n <= -n
    ensures k >= 2 ==> k * n > n
  {
  }

  lemma MultipleMod(n: int, k: int)
    requires n > 0
    ensures (k * n) % n == 0
  {
    assert k * n == n * k + 0;
    DivisionUnique(k * n, n, k, 0);
  }

  lemma DivisionUnique(x: int, n: int, q: int, r: int)
    requires n > 0 && 0 <= r < n && x == n * q + r
    ensures x / n == q && x % n == r
  {
    var q', r' := x / n, x % n;
    assert x == n * q' + r';
    assert (q' - q) * n == n * q' - n * q;
    Scale(q' - q, n);
  }

  lemma Quotient(n: int, x: int) returns (k: int)
    requires n > 0 && x % n == 0
    ensures x == k * n
  {
    k := x / n;
    assert x == n * (x / n) + x % n;
  }

  lemma CongruentFrom(n: int, x: int, y: int, k: int)
    requires n > 0 && x - y == k * n
    ensures Congruent(n, x, y)
  {
    MultipleMod(n, k);
  }

  lemma CongruentSum(n: int, a: int, b: int, c: int, d: int)
    requires n > 0 && Congruent(n, a, b) && Congruent(n, c, d)
    ensures Congruent(n, a + c, b + d)
    ensures Congruent(n, a - c, b - d)
  {
    var k := Quotient(n, a - b);
    var l := Quotient(n, c - d);
    assert (a + c) - (b + d) == (k + l) * n;
    assert (a - c) - (b - d) == (k - l) * n;
    CongruentFrom(n, a + c, b + d, k + l);
    CongruentFrom(n, a - c, b - d, k - l);
  }

  lemma CongruentProduct(n: int, a: int, b: int, c: int, d: int)
    requires n > 0 && Congruent(n, a, b) && Congruent(n, c, d)
    ensures Congruent(n, a * c, b * d)
  {
    var k := Quotient(n, a - b);
    var l := Quotient(n, c - d);
    calc {
      a * c - b * d;
      (a - b) * c + b * (c - d);
      (k * n) * c + b * (l * n);
      (k * c + b * l) * n;
    }
    CongruentFrom(n, a * c, b * d, k * c + b * l);
  }

  lemma CongruentSteps(n: int, a: int, b: int, c: int)
    requires n > 0 && Congruent(n, a, b)
    ensures Congruent(n, b, a)
    ensures Congruent(n, b, c) ==> Congruent(n, a, c)
  {
    var k := Quotient(n, a - b);
    assert b - a == (-k) * n;
    CongruentFrom(n, b, a, -k);
    if Congruent(n, b, c) { CongruentSum(n, a, b, b, c); assert a + b - (b + c) == a - c; }
  }

  /** A bounded integer that vanishes modulo `n` vanishes. */
  lemma BoundedZero(n: int, x: int)
    requires n > 0 && -n < x < n && x % n == 0
    ensures x == 0
  {
    var k := Quotient(n, x);
    Scale(k, n);
  }

  // ----- powers, given as a sequence of values -----

  /** `pw(i)` is the `i`-th power of `b`. */
  ghost predicate Powers(b: int, pw: nat -> int) {
    && pw(0) == 1
    && forall i: nat {:trigger pw(i + 1)} :: pw(i + 1) == b * pw(i)
  }

  lemma {:induction false} PowerSum(b: int, pw: nat -> int, i: nat, j: nat)
    requires Powers(b, pw)
    ensures pw(i + j) == pw(i) * pw(j)
    decreases i
  {
    if i > 0 {
      var k: nat := i - 1;
      PowerSum(b, pw, k, j);
      var m: nat := k + j;
      assert pw(k + 1) == b * pw(k);
      assert pw(m + 1) == b * pw(m);
      assert k + 1 == i && m + 1 == i + j;
      assert b * (pw(k) * pw(j)) == (b * pw(k)) * pw(j);
    }
  }

  /** The exponents `e` with `b^e = 1` are closed under subtraction, hence contain a common divisor. */
  lemma {:induction false} CommonExponent(b: int, pw: nat -> int, n: int, x: nat, y: nat) returns (g: nat)
    requires Powers(b, pw) && n > 0 && x > 0 && y > 0
    requires Congruent(n, pw(x), 1) && Congruent(n, pw(y), 1)
    ensures 0 < g && Divides(g, x) && Divides(g, y) && Congruent(n, pw(g), 1)
    decreases x + y, y
  {
    if x == y {
      g := x;
    } else if x > y {
      var z := x - y;
      PowerSum(b, pw, z, y);
      assert Congruent(n, pw(z), pw(z)) by { MultipleMod(n, 0); }
      CongruentProduct(n, pw(z), pw(z), pw(y), 1);
      CongruentSteps(n, pw(x), pw(z), 1);
      CongruentSteps(n, pw(z), pw(x), 1);
      g := CommonExponent(b, pw, n, z, y);
      var k := Quotient(g, z);
      var l := Quotient(g, y);
      assert x == (k + l) * g;
      MultipleMod(g, k + l);
    } else {
      g := CommonExponent(b, pw, n, y, x);
    }
  }

  lemma FirstPower(b: int, pw: nat -> int)
    requires Powers(b, pw)
    ensures pw(1) == b
  {
    var zero: nat := 0;
    assert pw(zero + 1) == b * pw(zero);
  }

  lemma DivisorBound(g: int, d: int)
    requires g > 0 && d > 0 && Divides(g, d)
    ensures g <= d
  {
    var k := Quotient(g, d);
    Scale(k, g);
  }

  /** If `b^q = 1`, `b != 1` and `q` is prime then no two of the first `q` powers of `b` agree. */
  lemma DistinctPowers(b: int, pw: nat -> int, n: int, q: nat, i: nat, j: nat)
    requires Powers(b, pw) && n > 1 && IsPrime(q) && i < j < q
    requires Congruent(n, pw(q), 1) && !Congruent(n, b, 1)
    ensures !Congruent(n, pw(i), pw(j))
  {
    if Congruent(n, pw(i), pw(j)) {
      var d := j - i;
      MultipleMod(n, 0);
      PowerSum(b, pw, i, q - i);
      PowerSum(b, pw, j, q - i);
      PowerSum(b, pw, d, q);
      CongruentProduct(n, pw(i), pw(j), pw(q - i), pw(q - i));
      assert Congruent(n, pw(q), pw(d + q));
      CongruentProduct(n, pw(d), pw(d), pw(q), 1);
      CongruentSteps(n, pw(d + q), pw(d), pw(d));
      CongruentSteps(n, pw(q), pw(d + q), pw(d));
      CongruentSteps(n, pw(q), pw(d), 1);
      CongruentSteps(n, pw(d), pw(q), 1);
      var g := CommonExponent(b, pw, n, d, q);
      DivisorBound(g, d);
      FirstPower(b, pw);
    }
  }

  lemma SameResidue(n: int, u: int, v: int)
    requires n > 0
    ensures u % n == v % n <==> Congruent(n, u, v)
  {
    if u % n == v % n {
      assert u - v == (u / n - v / n) * n;
      CongruentFrom(n, u, v, u / n - v / n);
    }
    if Congruent(n, u, v) {
      var k := Quotient(n, u - v);
      assert u == n * (v / n + k) + v % n;
      DivisionUnique(u, n, v / n + k, v % n);
    }
  }

  /** One is not a multiple of `n > 1`. */
  lemma NotOne(n: int, k: int)
    requires n > 1
    ensures k * n != 1
  {
    Scale(k, n);
  }

  lemma NonzeroPower(b: int, pw: nat -> int, n: int, q: nat, i: nat)
    requires Powers(b, pw) && n > 1 && i <= q && Congruent(n, pw(q), 1)
    ensures pw(i) % n != 0
  {
    PowerSum(b, pw, i, q - i);
    var l := Quotient(n, pw(q) - 1);
    var k := pw(i) / n;
    if pw(i) % n == 0 {
      assert pw(i) == k * n;
      assert (k * n) * pw(q - i) == (k * pw(q - i)) * n;
      NotOne(n, k * pw(q - i) - l);
    }
  }

  /** Residues of the first `m` powers, all different, fill `m` of the nonzero classes below `n`. */
  lemma {:induction false} Pigeonhole(b: int, pw: nat -> int, n: int, q: nat, m: nat) returns (s: set<int>)
    requires Powers(b, pw) && n > 1 && IsPrime(q) && m <= q
    requires Congruent(n, pw(q), 1) && !Congruent(n, b, 1)
    ensures |s| == m
    ensures forall x <- s :: 0 < x < n
    ensures forall x <- s :: exists i: nat :: i < m && x == pw(i) % n
  {
    if m == 0 {
      s := {};
    } else {
      var t := Pigeonhole(b, pw, n, q, m - 1);
      var x := pw(m - 1) % n;
      forall y | y in t ensures y != x {
        var i: nat :| i < m - 1 && y == pw(i) % n;
        DistinctPowers(b, pw, n, q, i, m - 1);
        SameResidue(n, pw(i), pw(m - 1));
      }
      NonzeroPower(b, pw, n, q, m - 1);
      s := t + {x};
    }
  }

  lemma {:induction false} RangeSize(s: set<int>, n: int)
    requires n > 0 && forall x <- s :: 0 < x < n
    ensures |s| < n
  {
    if n == 1 {
      assert s == {} by { assert forall x <- s :: false; }
    } else if n - 1 in s {
      RangeSize(s - {n - 1}, n - 1);
    } else {
      RangeSize(s, n - 1);
    }
  }

  /** Pocklington's criterion with one prime factor: `b^q = 1` and `b - 1` invertible modulo `n`. */
  lemma Pocklington(b: int, pw: nat -> int, n: int, q: nat, inverse: int)
    requires Powers(b, pw) && n > 1 && IsPrime(q) && n < q * q
    requires Congruent(n, pw(q), 1)
    requires Congruent(n, (b - 1) * inverse, 1)
    ensures IsPrime(n)
  {
    forall d: int | 1 < d < n ensures !Divides(d, n) {
      if Divides(d, n) {
        var e := Quotient(d, n);
        Cofactor(d, e, n);
        FactorExceeds(b, pw, n, q, inverse, d);
        FactorExceeds(b, pw, n, q, inverse, e);
        ProductExceeds(d, e, q);
      }
    }
  }

  lemma Cofactor(d: int, e: int, n: int)
    requires 1 < d < n && n == e * d
    ensures 1 < e && Divides(e, n)
  {
    Scale(e, d);
    assert n == d * e;
    MultipleMod(e, d);
  }

  lemma ProductExceeds(d: int, e: int, q: nat)
    requires d > q && e > q
    ensures d * e > q * q
  {
    assert d * e >= (q + 1) * e;
    assert (q + 1) * e >= (q + 1) * (q + 1);
  }

  lemma FactorExceeds(b: int, pw: nat -> int, n: int, q: nat, inverse: int, d: int)
    requires Powers(b, pw) && n > 1 && IsPrime(q) && 1 < d && Divides(d, n)
    requires Congruent(n, pw(q), 1)
    requires Congruent(n, (b - 1) * inverse, 1)
    ensures q < d
  {
    Reduce(n, d, pw(q), 1);
    Reduce(n, d, (b - 1) * inverse, 1);
    if Congruent(d, b, 1) {
      var k := Quotient(d, b - 1);
      var l := Quotient(d, (b - 1) * inverse - 1);
      assert (k * d) * inverse == (k * inverse) * d;
      NotOne(d, k * inverse - l);
    }
    var s := Pigeonhole(b, pw, d, q, q);
    RangeSize(s, d);
  }

  lemma Reduce(n: int, d: int, x: int, y: int)
    requires n > 0 && d > 0 && Divides(d, n) && Congruent(n, x, y)
    ensures Congruent(d, x, y)
  {
    var k := Quotient(n, x - y);
    var l := Quotient(d, n);
    assert x - y == (k * l) * d;
    CongruentFrom(d, x, y, k * l);
  }

  // ----- the primality certificate -----

  lemma ModCongruent(n: int, x: int)
    requires n > 0
    ensures Congruent(n, x, x % n)
  {
    CongruentFrom(n, x, x % n, x / n);
  }

  lemma FourthPower(b: int, pw: nat -> int, n: int, e: nat, x: int)
    requires Powers(b, pw) && n > 0 && Congruent(n, pw(e), x)
    ensures Congruent(n, pw(4 * e), x * x * x * x)
  {
    PowerSum(b, pw, e, e);
    PowerSum(b, pw, 2 * e, 2 * e);
    CongruentProduct(n, pw(e), x, pw(e), x);
    CongruentProduct(n, pw(2 * e), x * x, pw(2 * e), x * x);
    assert (x * x) * (x * x) == x * x * x * x;
  }

  /** Residues of the powers of `b` below the fourth, indexed by a base-four digit. */
  datatype Digits = Digits(one: int, two: int, three: int) {
    function At(d: nat): int {
      if d == 0 then 1 else if d == 1 then one else if d == 2 then two else three
    }
  }

  ghost predicate DigitTable(n: int, pw: nat -> int, t: Digits)
    requires n > 0
  {
    forall d: nat :: d < 4 ==> Congruent(n, pw(d), t.At(d))
  }

  lemma BuildTable(b: int, pw: nat -> int, n: int, t: Digits)
    requires Powers(b, pw) && n > 0 && t.one == b
    requires (b * b - t.two) % n == 0 && (b * b * b - t.three) % n == 0
    ensures DigitTable(n, pw, t)
  {
    MultipleMod(n, 0);
    FirstPower(b, pw);
    PowerSum(b, pw, 1, 1);
    PowerSum(b, pw, 2, 1);
  }

  /** Shifts one base-four digit into the exponent; `m` is the residue of `b^d`. */
  lemma DigitStep(b: int, pw: nat -> int, n: int, e: nat, x: int, d: nat, m: int, y: int)
    requires Powers(b, pw) && n > 0 && Congruent(n, pw(e), x) && Congruent(n, pw(d), m)
    requires (x * x * x * x * m - y) % n == 0
    ensures Congruent(n, pw(4 * e + d), y)
  {
    FourthPower(b, pw, n, e, x);
    PowerSum(b, pw, 4 * e, d);
    CongruentProduct(n, pw(4 * e), x * x * x * x, pw(d), m);
    CongruentSteps(n, pw(4 * e + d), x * x * x * x * m, y);
  }

  /** Four digits at once: `xs` are the residues reached, `ms` those of the digit powers. */
  lemma FourDigits(b: int, pw: nat -> int, n: int, t: Digits, e: nat, x: int,
                   d: nat, m: int, y: int, d': nat, m': int, y': int,
                   d'': nat, m'': int, y'': int, d''': nat, m''': int, y''': int)
    requires Powers(b, pw) && n > 0 && DigitTable(n, pw, t) && Congruent(n, pw(e), x)
    requires d < 4 && d' < 4 && d'' < 4 && d''' < 4
    requires m == t.At(d) && m' == t.At(d') && m'' == t.At(d'') && m''' == t.At(d''')
    requires (x * x * x * x * m - y) % n == 0
    requires (y * y * y * y * m' - y') % n == 0
    requires (y' * y' * y' * y' * m'' - y'') % n == 0
    requires (y'' * y'' * y'' * y'' * m''' - y''') % n == 0
    ensures Congruent(n, pw(256 * e + 64 * d + 16 * d' + 4 * d'' + d'''), y''')
  {
    DigitStep(b, pw, n, e, x, d, m, y);
    DigitStep(b, pw, n, 4 * e + d, y, d', m', y');
    DigitStep(b, pw, n, 16 * e + 4 * d + d', y', d'', m'', y'');
    DigitStep(b, pw, n, 64 * e + 16 * d + 4 * d' + d'', y'', d''', m''', y''');
  }

  function Pow(b: int, e: nat): int {
    if e == 0 then 1 else b * Pow(b, e - 1)
  }

  ghost function PowersOf(b: int): (pw: nat -> int)
    ensures Powers(b, pw)
  {
    (e: nat) => Pow(b, e)
  }

  lemma SmallPrime()
    ensures IsPrime(433)
  {
    forall d: int | 1 < d < 433 ensures !Divides(d, 433) {
      if Divides(d, 433) {
        var e := Quotient(d, 433);
        Cofactor(d, e, 433);
        SmallFactor(d, e);
      }
    }
  }

  /** Two factors of 433 cannot both exceed 20, and none of 2..20 divides it. */
  lemma SmallFactor(d: int, e: int)
    requires d > 1 && e > 1
    ensures d * e != 433
  {
    if d > 20 && e > 20 {
      ProductExceeds(d, e, 20);
      assert d * e >= 21 * e;
    }
  }

  lemma Certificate1(pw: nat -> int)
    requires IsPrime(433) && Powers(21836, pw)
    ensures IsPrime(36373)
  {
    var t := Digits(21836, 33612, 17238);
    BuildTable(21836, pw, 36373, t);
    MultipleMod(36373, 0);
    FourDigits(21836, pw, 36373, t, 0, 1,
      0, 1, 1,
      0, 1, 1,
      0, 1, 1,
      1, 21836, 21836);
    FourDigits(21836, pw, 36373, t, 1, 21836,
      2, 33612, 17607,
      3, 17238, 900,
      0, 1, 6835,
      1, 21836, 1);
    Pocklington(21836, pw, 36373, 433, 14939);
  }

  lemma Certificate2(pw: nat -> int)
    requires IsPrime(36373) && Powers(1445002, pw)
    ensures IsPrime(1964143)
  {
    var t := Digits(1445002, 1424422, 408282);
    BuildTable(1445002, pw, 1964143, t);
    MultipleMod(1964143, 0);
    FourDigits(1445002, pw, 1964143, t, 0, 1,
      2, 1424422, 1424422,
      0, 1, 1177194,
      3, 408282, 1050026,
      2, 1424422, 34309);
    FourDigits(1445002, pw, 1964143, t, 142, 34309,
      0, 1, 945015,
      1, 1445002, 1709078,
      1, 1445002, 1183700,
      1, 1445002, 1);
    Pocklington(1445002, pw, 1964143, 36373, 667433);
  }

  lemma Certificate3(pw: nat -> int)
    requires IsPrime(1964143) && Powers(4096, pw)
    ensures IsPrime(23569717)
  {
    var t := Digits(4096, 16777216, 13751681);
    BuildTable(4096, pw, 23569717, t);
    MultipleMod(23569717, 0);
    FourDigits(4096, pw, 23569717, t, 0, 1,
      0, 1, 1,
      1, 4096, 4096,
      3, 13751681, 20105583,
      1, 4096, 15803445);
    FourDigits(4096, pw, 23569717, t, 29, 15803445,
      3, 13751681, 2498191,
      3, 13751681, 15653186,
      2, 16777216, 6219851,
      0, 1, 17657440);
    FourDigits(4096, pw, 23569717, t, 7672, 17657440,
      1, 4096, 14594551,
      2, 16777216, 21348610,
      3, 13751681, 13561136,
      3, 13751681, 1);
    Pocklington(4096, pw, 23569717, 1964143, 18142063);
  }

  lemma Certificate4(pw: nat -> int)
    requires IsPrime(23569717) && Powers(220025730, pw)
    ensures IsPrime(942788681)
  {
    var t := Digits(220025730, 828944911, 722406923);
    BuildTable(220025730, pw, 942788681, t);
    MultipleMod(942788681, 0);
    FourDigits(220025730, pw, 942788681, t, 0, 1,
      0, 1, 1,
      0, 1, 1,
      0, 1, 1,
      1, 220025730, 220025730);
    FourDigits(220025730, pw, 942788681, t, 1, 220025730,
      1, 220025730, 361942447,
      2, 828944911, 660478906,
      1, 220025730, 522260858,
      3, 722406923, 55707331);
    FourDigits(220025730, pw, 942788681, t, 359, 55707331,
      2, 828944911, 426940557,
      2, 828944911, 692482894,
      1, 220025730, 369228032,
      1, 220025730, 676568387);
    FourDigits(220025730, pw, 942788681, t, 92069, 676568387,
      0, 1, 472025804,
      3, 722406923, 593229677,
      1, 220025730, 464949496,
      1, 220025730, 1);
    Pocklington(220025730, pw, 942788681, 23569717, 364325046);
  }

  lemma Certificate5(pw: nat -> int)
    requires IsPrime(942788681) && Powers(21444859682310, pw)
    ensures IsPrime(33908337700847)
  {
    var t := Digits(21444859682310, 6511998772893, 27477839256106);
    BuildTable(21444859682310, pw, 33908337700847, t);
    MultipleMod(33908337700847, 0);
    FourDigits(21444859682310, pw, 33908337700847, t, 0, 1,
      0, 1, 1,
      3, 27477839256106, 27477839256106,
      2, 6511998772893, 25947582918272,
      0, 1, 7377968091987);
    FourDigits(21444859682310, pw, 33908337700847, t, 56, 7377968091987,
      0, 1, 17928232269843,
      3, 27477839256106, 3980431598438,
      0, 1, 5332797177825,
      1, 21444859682310, 3435653226580);
    FourDigits(21444859682310, pw, 33908337700847, t, 14385, 3435653226580,
      3, 27477839256106, 3377631845135,
      1, 21444859682310, 7926635832396,
      0, 1, 22210843313821,
      0, 1, 33487579116081);
    FourDigits(21444859682310, pw, 33908337700847, t, 3682768, 33487579116081,
      1, 21444859682310, 3542570651430,
      0, 1, 28784888362833,
      2, 6511998772893, 18311678102318,
      1, 21444859682310, 1);
    Pocklington(21444859682310, pw, 33908337700847, 942788681, 1799242257211);
  }

  lemma Certificate6(pw: nat -> int)
    requires IsPrime(33908337700847) && Powers(10603016560962440328368610, pw)
    ensures IsPrime(54317376720913331118684727)
  {
    var t := Digits(10603016560962440328368610, 24303557873264946459431989, 37733229667806181702969573);
    BuildTable(10603016560962440328368610, pw, 54317376720913331118684727, t);
    MultipleMod(54317376720913331118684727, 0);
    FourDigits(10603016560962440328368610, pw, 54317376720913331118684727, t, 0, 1,
      0, 1, 1,
      1, 10603016560962440328368610, 10603016560962440328368610,
      3, 37733229667806181702969573, 3941389135188192992459099,
      2, 24303557873264946459431989, 41335171416352043679746100);
    FourDigits(10603016560962440328368610, pw, 54317376720913331118684727, t, 30, 41335171416352043679746100,
      3, 37733229667806181702969573, 29254290959484526607925350,
      1, 10603016560962440328368610, 6500311129190801347199522,
      1, 10603016560962440328368610, 53373036145464723027986572,
      2, 24303557873264946459431989, 45584765971464253192677990);
    FourDigits(10603016560962440328368610, pw, 54317376720913331118684727, t, 7894, 45584765971464253192677990,
      3, 37733229667806181702969573, 53292453700975444580338997,
      2, 24303557873264946459431989, 17579732101870589470893626,
      1, 10603016560962440328368610, 8164764640100408660995722,
      2, 24303557873264946459431989, 53930975397358415769419832);
    FourDigits(10603016560962440328368610, pw, 54317376720913331118684727, t, 2021094, 53930975397358415769419832,
      1, 10603016560962440328368610, 47804906816520258876559251,
      2, 24303557873264946459431989, 4670951304424482907517043,
      3, 37733229667806181702969573, 47046491778125301313776570,
      0, 1, 41978973186012954179501107);
    FourDigits(10603016560962440328368610, pw, 54317376720913331118684727, t, 517400172, 41978973186012954179501107,
      1, 10603016560962440328368610, 45852415977005629700124009,
      2, 24303557873264946459431989, 10534304085254062169542406,
      3, 37733229667806181702969573, 25040437670031618834648031,
      3, 37733229667806181702969573, 2788789745441300781183331);
    FourDigits(10603016560962440328368610, pw, 54317376720913331118684727, t, 132454444143, 2788789745441300781183331,
      3, 37733229667806181702969573, 35363919951111897926861995,
      2, 24303557873264946459431989, 38858855466011203191069554,
      3, 37733229667806181702969573, 33934327563370900417886425,
      3, 37733229667806181702969573, 1);
    Pocklington(10603016560962440328368610, pw, 54317376720913331118684727, 33908337700847, 19880598731629189148571176);
  }

  lemma Certificate7(pw: nat -> int)
    requires IsPrime(54317376720913331118684727) && Powers(299670310097033029416336167540611082073, pw)
    ensures IsPrime(340282366920938463463374607427473266697)
  {
    var t := Digits(299670310097033029416336167540611082073, 288229109381658734972374796387200384612,
                    149996836921938307512479195030086266394);
    BuildTable(299670310097033029416336167540611082073, pw, 340282366920938463463374607427473266697, t);
    MultipleMod(340282366920938463463374607427473266697, 0);
    FourDigits(299670310097033029416336167540611082073, pw, 340282366920938463463374607427473266697, t, 0, 1,
      0, 1, 1,
      2, 288229109381658734972374796387200384612, 288229109381658734972374796387200384612,
      3, 149996836921938307512479195030086266394, 275682650741931693813724425344120362716,
      0, 1, 217473514076416361526081189482707926967);
    FourDigits(299670310097033029416336167540611082073, pw, 340282366920938463463374607427473266697, t, 44,
               217473514076416361526081189482707926967,
      3, 149996836921938307512479195030086266394, 191233111963403184036489366389911357454,
      2, 288229109381658734972374796387200384612, 103245855979331431616776785679101923888,
      3, 149996836921938307512479195030086266394, 282521255647260964385807420281120261614,
      2, 288229109381658734972374796387200384612, 326603161939084335112799638649305129111);
    FourDigits(299670310097033029416336167540611082073, pw, 340282366920938463463374607427473266697, t, 11502,
               326603161939084335112799638649305129111,
      0, 1, 199474442307203210549645883816825727387,
      2, 288229109381658734972374796387200384612, 41299745788963459535029586199137549213,
      1, 299670310097033029416336167540611082073, 279609270548938036283869979427017261952,
      2, 288229109381658734972374796387200384612, 204793254219159198881484676720692680895);
    FourDigits(299670310097033029416336167540611082073, pw, 340282366920938463463374607427473266697, t, 2944550,
               204793254219159198881484676720692680895,
      3, 149996836921938307512479195030086266394, 101078448692465649002193103172895547353,
      2, 288229109381658734972374796387200384612, 107858051630640848320048132842285772288,
      1, 299670310097033029416336167540611082073, 120560541934625665971817483732387820352,
      0, 1, 288975176244619571443655426431297010672);
    FourDigits(299670310097033029416336167540611082073, pw, 340282366920938463463374607427473266697, t, 753805028,
               288975176244619571443655426431297010672,
      1, 299670310097033029416336167540611082073, 48362300994786409548251787766638304067,
      2, 288229109381658734972374796387200384612, 274362056415295527822847815009137128559,
      2, 288229109381658734972374796387200384612, 309466542567962673561943403943226446189,
      0, 1, 132435927257789185119098310497975031570);
    FourDigits(299670310097033029416336167540611082073, pw, 340282366920938463463374607427473266697, t, 192974087272,
               132435927257789185119098310497975031570,
      3, 149996836921938307512479195030086266394, 265985215742719639867556518639298670353,
      3, 149996836921938307512479195030086266394, 217498369811888659450186492103302899576,
      0, 1, 270823542265257784570974791861305246842,
      2, 288229109381658734972374796387200384612, 67210985629343654437838639380810162562);
    FourDigits(299670310097033029416336167540611082073, pw, 340282366920938463463374607427473266697, t, 49401366341874,
               67210985629343654437838639380810162562,
      3, 149996836921938307512479195030086266394, 319544607452761660308655697173636039259,
      1, 299670310097033029416336167540611082073, 171340855653272486636687915942330365349,
      3, 149996836921938307512479195030086266394, 50573792051150397915472480270680782294,
      1, 299670310097033029416336167540611082073, 304294535907105006000876988683351297110);
    FourDigits(299670310097033029416336167540611082073, pw, 340282366920938463463374607427473266697, t,
               12646749783519965, 304294535907105006000876988683351297110,
      1, 299670310097033029416336167540611082073, 51343030337942209625341532990808676405,
      2, 288229109381658734972374796387200384612, 261353946721438221176762726613931039989,
      1, 299670310097033029416336167540611082073, 1856858893394143601596853387108626605,
      0, 1, 244697852993583693856737012307708519414);
    FourDigits(299670310097033029416336167540611082073, pw, 340282366920938463463374607427473266697, t,
               3237567944581111140, 244697852993583693856737012307708519414,
      0, 1, 158761797028461419879124270367329261412,
      2, 288229109381658734972374796387200384612, 85207176574319943880705900686509189140,
      3, 149996836921938307512479195030086266394, 7574172463068575480204574660494203354,
      0, 1, 274901205532248560806161630232507673081);
    FourDigits(299670310097033029416336167540611082073, pw, 340282366920938463463374607427473266697, t,
               828817393812764451884, 274901205532248560806161630232507673081,
      0, 1, 276204575993129363066064995224120966087,
      3, 149996836921938307512479195030086266394, 282799962250950108331252082917219359861,
      2, 288229109381658734972374796387200384612, 270123904508758443461628696187846678825,
      2, 288229109381658734972374796387200384612, 323881539299953779229366961510820071308);
    FourDigits(299670310097033029416336167540611082073, pw, 340282366920938463463374607427473266697, t,
               212177252816067699682362, 323881539299953779229366961510820071308,
      0, 1, 315012892865635000010886283205586064401,
      3, 149996836921938307512479195030086266394, 294868489327268272592011728145388404154,
      1, 299670310097033029416336167540611082073, 33585211223086233034482660141155370845,
      3, 149996836921938307512479195030086266394, 1);
    Pocklington(299670310097033029416336167540611082073, pw, 340282366920938463463374607427473266697,
                54317376720913331118684727, 318671265918785989965590116429238544304);
  }

  /** The modulus of the native field is prime. */
  lemma ModulusIsPrime()
    ensures IsPrime(P)
  {
    SmallPrime();
    Certificate1(PowersOf(21836));
    Certificate2(PowersOf(1445002));
    Certificate3(PowersOf(4096));
    Certificate4(PowersOf(220025730));
    Certificate5(PowersOf(21444859682310));
    Certificate6(PowersOf(10603016560962440328368610));
    Certificate7(PowersOf(299670310097033029416336167540611082073));
  }
}
