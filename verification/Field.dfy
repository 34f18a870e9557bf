/** Columns of a packed row: canonical field elements, vanishing identities, and bit decompositions. */
module Field {

  import opened Modulus

  /** Least positive multiplier of `a` that `p` divides. */
  ghost predicate LeastMultiplier(p: int, a: int, k: int) {
    p > 0 && k > 0 && (k * a) % p == 0 && forall j: int :: 0 < j < k ==> (j * a) % p != 0
  }

  lemma {:induction false} FindLeast(p: int, a: int, k: int) returns (least: int)
    requires p > 0 && k > 0 && (k * a) % p == 0
    ensures LeastMultiplier(p, a, least)
    decreases k
  {
    if j: int :| 0 < j < k && (j * a) % p == 0 {
      least := FindLeast(p, a, j);
    } else {
      least := k;
    }
  }

  /** Every annihilating multiplier is a multiple of the least one. */
  lemma LeastDivides(p: int, a: int, k: int, m: int)
    requires LeastMultiplier(p, a, k) && (m * a) % p == 0
    ensures m % k == 0
  {
    var q, r := m / k, m % k;
    assert m == k * q + r;
    var x := Quotient(p, m * a);
    var y := Quotient(p, k * a);
    calc {
      r * a;
      (m - k * q) * a;
      m * a - q * (k * a);
      x * p - q * (y * p);
      (x - q * y) * p;
    }
    MultipleMod(p, x - q * y);
  }

  /** A prime dividing a product divides a factor. */
  lemma EuclidLemma(p: int, a: int, b: int)
    requires IsPrime(p) && (a * b) % p == 0
    ensures a % p == 0 || b % p == 0
  {
    assert p * a == a * p;
    MultipleMod(p, a);
    var k := FindLeast(p, a, p);
    LeastDivides(p, a, k, p);
    assert b * a == a * b;
    LeastDivides(p, a, k, b);
    DivisorBound(k, p);
    assert Divides(k, p);
    assert k == 1 || k == p;
  }

  // ----- columns -----

  /** A canonical element of the native field. */
  predicate Felt(x: int) { 0 <= x < P }

  /** A constraint slot evaluates to zero in the field. */
  predicate Zero(x: int) { x % P == 0 }

  predicate Bit(x: int) { x == 0 || x == 1 }

  function AsBit(b: bool): int { if b then 1 else 0 }

  /** The identity `x * (x - 1) = 0` leaves only the two bits: the field has no zero divisors. */
  lemma BooleanColumn(x: int)
    requires Felt(x) && Zero(x * (x - 1))
    ensures Bit(x)
  {
    ModulusIsPrime();
    EuclidLemma(P, x, x - 1);
    if x % P == 0 { BoundedZero(P, x); } else { BoundedZero(P, x - 1); }
  }

  lemma ZeroHolds(x: int)
    requires x == 0
    ensures Zero(x)
  {
  }

  /** Bounded identities hold over the integers. */
  lemma ZeroIsZero(x: int)
    requires -P < x < P && Zero(x)
    ensures x == 0
  {
    BoundedZero(P, x);
  }

  /** Two canonical columns whose difference vanishes are equal. */
  lemma SameColumn(x: int, y: int)
    requires Felt(x) && Felt(y) && Zero(x - y)
    ensures x == y
  {
    BoundedZero(P, x - y);
  }

  // ----- bit decompositions, least significant first -----

  predicate Bits(s: seq<int>) { forall i :: 0 <= i < |s| ==> Bit(s[i]) }

  predicate BooleanIdentities(s: seq<int>) {
    forall i :: 0 <= i < |s| ==> Felt(s[i]) && Zero(s[i] * (s[i] - 1))
  }

  /** Boolean identities hold exactly for bit columns: the field has no zero divisors. */
  lemma BooleanColumns(s: seq<int>)
    ensures BooleanIdentities(s) <==> Bits(s)
  {
    if BooleanIdentities(s) {
      forall i | 0 <= i < |s| ensures Bit(s[i]) { BooleanColumn(s[i]); }
    }
    if Bits(s) {
      forall i | 0 <= i < |s| ensures Felt(s[i]) && Zero(s[i] * (s[i] - 1)) { ZeroHolds(s[i] * (s[i] - 1)); }
    }
  }

  function Packed(s: seq<int>): int {
    if s == [] then 0 else s[0] + 2 * Packed(s[1..])
  }

  function Pow2(k: nat): (p: int)
    ensures p > 0
  {
    if k == 0 then 1 else 2 * Pow2(k - 1)
  }

  lemma PowerSteps(k: nat)
    ensures Pow2(k + 1) == 2 * Pow2(k) && Pow2(k + 2) == 4 * Pow2(k)
  {
  }

  /** Powers of the column widths in use. */
  lemma PowerValues()
    ensures Pow2(0) == 1 && Pow2(1) == 2 && Pow2(2) == 4 && Pow2(3) == 8 && Pow2(4) == 16 && Pow2(5) == 32
    ensures Pow2(6) == 64
    ensures Pow2(7) == 128 && Pow2(8) == 256 && Pow2(9) == 512 && Pow2(10) == 1024 && Pow2(12) == 4096
    ensures Pow2(13) == 8192
    ensures Pow2(14) == 16384 && Pow2(16) == 65536
  {
    var k := 0;
    assert Pow2(k) == 1;
    hide Pow2;
    PowerSteps(k);
    PowerSteps(k + 2);
    PowerSteps(k + 4);
    PowerSteps(k + 6);
    PowerSteps(k + 8);
    PowerSteps(k + 10);
    PowerSteps(k + 12);
    PowerSteps(k + 14);
  }

  lemma {:induction false} PackedRange(s: seq<int>)
    requires Bits(s)
    ensures 0 <= Packed(s) < Pow2(|s|)
  {
    if s != [] { PackedRange(s[1..]); }
  }

  lemma {:induction false} ZeroPacked(s: seq<int>)
    requires Bits(s)
    ensures Packed(s) == 0 <==> forall i :: 0 <= i < |s| ==> s[i] == 0
  {
    if s != [] {
      ZeroPacked(s[1..]);
      PackedRange(s[1..]);
      assert forall i :: 0 < i < |s| ==> s[i] == s[1..][i - 1];
    }
  }

  lemma {:induction false} PackedSplit(s: seq<int>, k: nat)
    requires k <= |s|
    ensures Packed(s) == Packed(s[..k]) + Pow2(k) * Packed(s[k..])
  {
    if k == 0 {
      assert s[k..] == s;
    } else {
      PackedSplit(s[1..], k - 1);
      assert s[1..][..k - 1] == s[..k][1..];
      assert s[1..][k - 1..] == s[k..];
    }
  }

  /** Bit `k` of the packed value is column `k`. */
  lemma PackedBit(s: seq<int>, k: nat)
    requires Bits(s) && k < |s|
    ensures Pow2(k) > 0 && Packed(s) / Pow2(k) % 2 == s[k]
  {
    PackedSplit(s, k);
    PackedRange(s[..k]);
    assert s[k..][0] == s[k] && s[k..][1..] == s[k + 1..];
    var high := Packed(s[k + 1..]);
    assert Packed(s[k..]) == s[k] + 2 * high;
    DivisionUnique(Packed(s), Pow2(k), s[k] + 2 * high, Packed(s[..k]));
    DivisionUnique(s[k] + 2 * high, 2, high, s[k]);
  }

  /** Equal packed values have equal columns. */
  lemma {:induction false} PackedInjective(s: seq<int>, t: seq<int>)
    requires Bits(s) && Bits(t) && |s| == |t|
    ensures Packed(s) == Packed(t) <==> s == t
  {
    if s == [] {
    } else {
      PackedInjective(s[1..], t[1..]);
      assert s == [s[0]] + s[1..] && t == [t[0]] + t[1..];
    }
  }

  lemma Packed3(s: seq<int>)
    requires |s| == 3
    ensures Packed(s) == s[0] + 2 * s[1] + 4 * s[2]
  {
    assert s[1..][1..] == s[2..] && s[2..][1..] == [];
  }

  lemma Packed8(s: seq<int>)
    requires |s| == 8
    ensures Packed(s) == s[0] + 2 * s[1] + 4 * s[2] + 8 * s[3] + 16 * s[4] + 32 * s[5] + 64 * s[6] + 128 * s[7]
  {
    PackedSplit(s, 5);
    Packed3(s[5..]);
    Packed5(s[..5]);
  }

  lemma Packed5(s: seq<int>)
    requires |s| == 5
    ensures Packed(s) == s[0] + 2 * s[1] + 4 * s[2] + 8 * s[3] + 16 * s[4]
  {
    assert s[1..][1..] == s[2..];
    Packed3(s[2..]);
  }

  lemma Packed9(s: seq<int>)
    requires |s| == 9
    ensures Packed(s)
            == s[0] + 2 * s[1] + 4 * s[2] + 8 * s[3] + 16 * s[4] + 32 * s[5] + 64 * s[6] + 128 * s[7] + 256 * s[8]
  {
    assert s[1..] == s[1..9];
    Packed8(s[1..]);
  }

  function BitsOf(x: int, n: nat): (s: seq<int>)
    ensures |s| == n && Bits(s)
    decreases n
  {
    if n == 0 then [] else [x % 2] + BitsOf(x / 2, n - 1)
  }

  lemma {:induction false} PackedBitsOf(x: int, n: nat)
    requires 0 <= x < Pow2(n)
    ensures Packed(BitsOf(x, n)) == x
  {
    if n > 0 {
      PackedBitsOf(x / 2, n - 1);
      assert BitsOf(x, n)[1..] == BitsOf(x / 2, n - 1);
    }
  }
}
