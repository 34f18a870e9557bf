/** Columns written from values: bit sequences, running conjunctions, and their small facts. */
module Encoding {

  import opened Field
  import opened Gadgets

  lemma BitsFit(x: int, n: nat, bound: int)
    requires 0 <= x < bound && bound == Pow2(n)
    ensures Packed(BitsOf(x, n)) == x
  {
    PackedBitsOf(x, n);
  }

  function Zeros(n: nat): (s: seq<int>)
    ensures |s| == n && Bits(s)
  {
    seq(n, _ => 0)
  }

  /** All factors up to `i` hold. */
  predicate Upto(start: bool, factor: seq<bool>, i: nat)
    requires i < |factor|
  {
    start && forall j :: 0 <= j <= i ==> factor[j]
  }

  /** A running conjunction written as bits. */
  predicate RunningBits(start: bool, factor: seq<bool>, prefix: seq<int>) {
    |prefix| == |factor| && forall i :: 0 <= i < |factor| ==> prefix[i] == AsBit(Upto(start, factor, i))
  }

  /** The loop shared by the three prefixes of `append_interrupt_state`. */
  method AppendPrefix(start: bool, factor: seq<bool>) returns (prefix: seq<int>)
    ensures RunningBits(start, factor, prefix)
  {
    prefix := [];
    var running := start;
    for i := 0 to |factor|
      invariant |prefix| == i
      invariant running <==> start && forall j :: 0 <= j < i ==> factor[j]
      invariant forall k :: 0 <= k < i ==> prefix[k] == AsBit(Upto(start, factor, k))
    {
      running := running && factor[i];
      prefix := prefix + [AsBit(running)];
    }
  }

  /** The running conjunction of flags as a sequence. */
  function Prefix(start: bool, flags: seq<bool>): (s: seq<int>)
    ensures RunningBits(start, flags, s) && Bits(s) && |s| == |flags|
  {
    seq(|flags|, i requires 0 <= i < |flags| => AsBit(Upto(start, flags, i)))
  }

  function ClearFlags(b: seq<int>): (r: seq<bool>)
    ensures |r| == |b|
  {
    seq(|b|, i requires 0 <= i < |b| => b[i] == 0)
  }

  lemma JoinBits(a: seq<int>, b: seq<int>)
    requires Bits(a) && Bits(b)
    ensures Bits(a + b)
  {
  }

  lemma OneBit(b: bool)
    ensures Bits([AsBit(b)])
  {
  }

  lemma LinkHolds(start: int, prefix: seq<int>, factor: seq<int>, i: nat)
    requires |prefix| == |factor| && i < |prefix|
    requires prefix[i] == (if i == 0 then start else prefix[i - 1]) * factor[i]
    ensures ChainLink(start, prefix, factor, i)
  {
  }

  /** A running conjunction satisfies the product chain. */
  lemma RunningChain(start: bool, flags: seq<bool>, prefix: seq<int>, factor: seq<int>)
    requires RunningBits(start, flags, prefix) && |factor| == |flags|
    requires forall i :: 0 <= i < |flags| ==> factor[i] == AsBit(flags[i])
    ensures ChainIdentities(AsBit(start), prefix, factor)
  {
    hide ChainLink;
    forall i: nat | i < |prefix| ensures ChainLink(AsBit(start), prefix, factor, i) {
      if i > 0 {
        assert Upto(start, flags, i) <==> Upto(start, flags, i - 1) && flags[i];
        assert prefix[i - 1] == AsBit(Upto(start, flags, i - 1));
      }
      LinkHolds(AsBit(start), prefix, factor, i);
    }
  }

  // ----- bits of particular values -----

  /** Columns that pack to a value are its bits. */
  lemma BitsAre(b: seq<int>, x: int, n: nat, bound: int)
    requires |b| == n && Bits(b) && Packed(b) == x && 0 <= x < bound && bound == Pow2(n)
    ensures BitsOf(x, n) == b
  {
    BitsFit(x, n, bound);
    PackedInjective(BitsOf(x, n), b);
  }

  /** A value below four has no bit of weight four or more. */
  lemma SmallBits(x: int, n: nat)
    requires 0 <= x < 4 && n >= 2
    ensures forall i :: 2 <= i < n ==> BitsOf(x, n)[i] == 0
  {
    var rest := BitsOf(x / 2, n - 1);
    ZeroBits(x / 2 / 2, n - 2);
    assert x / 2 / 2 == 0;
    assert BitsOf(x, n) == [x % 2] + rest && rest == [x / 2 % 2] + BitsOf(x / 2 / 2, n - 2);
    forall i | 2 <= i < n ensures BitsOf(x, n)[i] == 0 {
      assert BitsOf(x, n)[i] == BitsOf(x / 2 / 2, n - 2)[i - 2];
    }
  }

  lemma {:induction false} ZeroBits(x: int, n: nat)
    requires x == 0
    ensures forall i :: 0 <= i < n ==> BitsOf(x, n)[i] == 0
  {
    if n > 0 { ZeroBits(x / 2, n - 1); }
  }
}
