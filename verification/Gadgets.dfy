/** Shared constraint gadgets: range by slack bits, event/gap comparison, running products. */
module Gadgets {

  import opened Field

  /** A ranged column: `value = bits` and `value + slack = maximum`. */
  predicate RangedIdentities(owner: int, value: int, bits: seq<int>, slack: seq<int>, maximum: int) {
    && Zero(owner * (value - Packed(bits)))
    && Zero(owner * (value + Packed(slack) - maximum))
  }

  lemma RangedSound(value: int, bits: seq<int>, slack: seq<int>, maximum: int)
    requires Felt(value) && Bits(bits) && Bits(slack) && |bits| == |slack| <= 9 && 0 <= maximum < 512
    requires RangedIdentities(1, value, bits, slack, maximum)
    ensures value == Packed(bits) && 0 <= value <= maximum
  {
    PackedRange(bits);
    PackedRange(slack);
    Pow2Below(|bits|, 9);
    hide Packed, Pow2;
    SameColumn(value, Packed(bits));
    ZeroIsZero(value + Packed(slack) - maximum);
  }

  lemma {:induction false} Pow2Below(n: nat, m: nat)
    requires n <= m
    ensures 0 < Pow2(n) <= Pow2(m)
    ensures m == 9 ==> Pow2(m) == 512
    ensures m == 17 ==> Pow2(m) == 131072
    decreases m
  {
    if n < m { Pow2Below(n, m - 1); } else if m > 0 { Pow2Below(m - 1, m - 1); }
  }

  /** The comparison gadget: `event` and `gap` witness whether `elapsed` has reached `distance`. */
  predicate ComparisonIdentities(active: int, elapsed: int, distance: int, event: int, gap: int) {
    && Zero(active * (gap - event * (elapsed - distance) - (1 - event) * (distance - elapsed - 1)))
    && Zero((1 - active) * event)
    && Zero((1 - active) * gap)
  }

  /** An active comparison decides `elapsed >= distance` and records the difference. */
  lemma ComparisonSound(elapsed: int, distance: int, event: int, gap: int)
    requires Bit(event) && 0 <= gap < 0x1_0000_0000 && 0 <= distance < 0x1_0000_0000
    requires 0 <= elapsed < 0x1_0000_0000_0000_0000_0000
    requires ComparisonIdentities(1, elapsed, distance, event, gap)
    ensures event == AsBit(elapsed >= distance)
    ensures gap == if elapsed >= distance then elapsed - distance else distance - elapsed - 1
  {
    if event == 1 {
      ZeroIsZero(gap - (elapsed - distance));
    } else {
      ZeroIsZero(gap - (distance - elapsed - 1));
    }
  }

  lemma ComparisonInactive(elapsed: int, distance: int, event: int, gap: int)
    requires Bit(event) && 0 <= gap < 0x1_0000_0000
    requires ComparisonIdentities(0, elapsed, distance, event, gap)
    ensures event == 0 && gap == 0
  {
    ZeroIsZero(event);
    ZeroIsZero(gap);
  }

  /** A honest comparison witness exists for every pair and satisfies the gadget. */
  lemma ComparisonComplete(elapsed: int, distance: int)
    ensures ComparisonIdentities(1, elapsed, distance, AsBit(elapsed >= distance),
                                 if elapsed >= distance then elapsed - distance else distance - elapsed - 1)
  {
    assert Zero(0);
  }

  /** Running products: `prefix[i] = prefix[i - 1] * factor[i]`, starting from `start`. */
  predicate ChainIdentities(start: int, prefix: seq<int>, factor: seq<int>) {
    |prefix| == |factor| && forall i: nat :: i < |prefix| ==> ChainLink(start, prefix, factor, i)
  }

  predicate ChainLink(start: int, prefix: seq<int>, factor: seq<int>, i: nat)
    requires |prefix| == |factor| && i < |prefix|
  {
    Zero(prefix[i] - (if i == 0 then start else prefix[i - 1]) * factor[i])
  }

  /** A chain over bits computes the conjunction of the factors seen so far. */
  lemma {:induction false} ChainSound(start: int, prefix: seq<int>, factor: seq<int>, n: nat)
    requires Bit(start) && Bits(prefix) && Bits(factor) && ChainIdentities(start, prefix, factor) && n <= |prefix|
    ensures n > 0 ==> prefix[n - 1] == AsBit(start == 1 && forall i :: 0 <= i < n ==> factor[i] == 1)
  {
    if n > 0 {
      ChainSound(start, prefix, factor, n - 1);
      var prior := if n == 1 then start else prefix[n - 2];
      assert ChainLink(start, prefix, factor, n - 1);
      EqProduct(prefix[n - 1], prior, factor[n - 1]);
    }
  }

  lemma EqProduct(x: int, y: int, z: int)
    requires Bit(x) && Bit(y) && Bit(z) && Zero(x - y * z)
    ensures x == AsBit(y == 1 && z == 1)
  {
    ZeroIsZero(x - y * z);
  }

  // ----- short cycles -----

  /** The first `c` of six cycle columns are set. */
  predicate ActivePrefix(active: seq<int>, c: nat) {
    |active| == 6 && c <= 6 && forall i :: 0 <= i < 6 ==> active[i] == AsBit(i < c)
  }

  function Sum(s: seq<int>): int
    requires |s| == 6
  {
    s[0] + s[1] + s[2] + s[3] + s[4] + s[5]
  }

  lemma EqPrefix(x: int, y: int)
    requires Bit(x) && Bit(y) && Zero((1 - x) * y)
    ensures y == 1 ==> x == 1
  {
    if x == 0 { ZeroIsZero(y); }
  }

  /** Bits of which each needs the one before form a prefix as long as their sum. */
  lemma PrefixLength(active: seq<int>)
    requires |active| == 6 && Bits(active) && forall i :: 0 <= i < 5 && active[i + 1] == 1 ==> active[i] == 1
    ensures 0 <= Sum(active) <= 6 && ActivePrefix(active, Sum(active))
  {
    var a, b, c, d, e, f := active[0], active[1], active[2], active[3], active[4], active[5];
    assert Bit(a) && Bit(b) && Bit(c) && Bit(d) && Bit(e) && Bit(f);
    assert active[0 + 1] == 1 ==> active[0] == 1;
    assert active[1 + 1] == 1 ==> active[1] == 1;
    assert active[2 + 1] == 1 ==> active[2] == 1;
    assert active[3 + 1] == 1 ==> active[3] == 1;
    assert active[4 + 1] == 1 ==> active[4] == 1;
  }

  lemma SixRoots(c: int)
    requires 1 <= c <= 6
    ensures (c - 1) * (c - 2) * (c - 3) * (c - 4) * (c - 5) * (c - 6) == 0
  {
    var a, b := (c - 1) * (c - 2) * (c - 3), (c - 4) * (c - 5) * (c - 6);
    assert (c - 1) * (c - 2) * (c - 3) * (c - 4) * (c - 5) * (c - 6) == a * b;
    if c <= 3 { assert a == 0; } else { assert b == 0; }
  }
}
