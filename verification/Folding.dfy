/** Binary folding: rounds of pairwise interpolation evaluate the multilinear extension. */
module Folding {

  import opened Wrappers
  import opened Modulus
  import opened Field
  import opened Limbs

  /** Interpolation of one pair in the field. */
  function Interpolate(low: int, high: int, challenge: int): int { (low + challenge * (high - low)) % P }

  /** One round: entry `i` comes from the pair `(2i, 2i + 1)`. */
  function Layer(values: seq<int>, challenge: int): (r: seq<int>)
    ensures |r| == |values| / 2
  {
    seq(|values| / 2, i requires 0 <= i < |values| / 2 => Interpolate(values[2 * i], values[2 * i + 1], challenge))
  }

  function Rounds(values: seq<int>, point: seq<int>): seq<int>
    decreases |point|
  {
    if point == [] then values else Rounds(Layer(values, point[0]), point[1..])
  }

  // ----- the multilinear extension -----

  /** The basis polynomial of table index `i`; bit zero of the index belongs to the first coordinate. */
  function Basis(i: nat, point: seq<int>): int
    decreases |point|
  {
    if point == [] then 1 else (if i % 2 == 1 then point[0] else 1 - point[0]) * Basis(i / 2, point[1..])
  }

  function Extension(values: seq<int>, point: seq<int>, n: nat): int
    requires n <= |values|
  {
    if n == 0 then 0 else Extension(values, point, n - 1) + values[n - 1] * Basis(n - 1, point)
  }

  lemma Halving(i: nat)
    ensures 2 * i / 2 == i && 2 * i % 2 == 0 && (2 * i + 1) / 2 == i && (2 * i + 1) % 2 == 1
  {
  }

  /** One pair of the sum, before reduction. */
  lemma PairTerm(low: int, high: int, x: int, b: int)
    ensures low * ((1 - x) * b) + high * (x * b) == (low + x * (high - low)) * b
  {
    calc {
      low * ((1 - x) * b) + high * (x * b);
      (low * (1 - x) + high * x) * b;
      (low + x * (high - low)) * b;
    }
  }

  /** A round leaves the extension at the remaining coordinates unchanged modulo the field. */
  lemma {:induction false} RoundKeepsExtension(values: seq<int>, point: seq<int>, m: nat)
    requires point != [] && 2 * m <= |values|
    ensures m <= |Layer(values, point[0])|
    ensures Congruent(P, Extension(values, point, 2 * m), Extension(Layer(values, point[0]), point[1..], m))
  {
    hide Interpolate, Basis, Congruent;
    var x, rest := point[0], point[1..];
    var layer := Layer(values, x);
    if m == 0 {
      SameResidue(P, 0, 0);
    } else {
      RoundKeepsExtension(values, point, m - 1);
      var k := m - 1;
      var b, low, high := Basis(k, rest), values[2 * k], values[2 * k + 1];
      PairBasis(k, point);
      PairTerm(low, high, x, b);
      assert layer[k] == Interpolate(low, high, x);
      InterpolateTimes(low, high, x, b);
      var pair := low * ((1 - x) * b) + high * (x * b);
      assert Extension(values, point, 2 * m)
        == Extension(values, point, 2 * k) + pair by { TwoTerms(values, point, k); }
      CongruentSum(P, Extension(values, point, 2 * k), Extension(layer, rest, k), pair, layer[k] * b);
    }
  }

  lemma TwoTerms(values: seq<int>, point: seq<int>, k: nat)
    requires point != [] && 2 * k + 2 <= |values|
    ensures Extension(values, point, 2 * k + 2)
         == Extension(values, point, 2 * k)
           + (values[2 * k] * Basis(2 * k, point) + values[2 * k + 1] * Basis(2 * k + 1, point))
  {
    hide Basis;
    assert Extension(values, point, 2 * k + 1) == Extension(values, point, 2 * k) + values[2 * k] * Basis(2 * k, point);
  }

  lemma PairBasis(k: nat, point: seq<int>)
    requires point != []
    ensures Basis(2 * k, point) == (1 - point[0]) * Basis(k, point[1..])
    ensures Basis(2 * k + 1, point) == point[0] * Basis(k, point[1..])
  {
    Halving(k);
  }

  lemma InterpolateTimes(low: int, high: int, x: int, b: int)
    ensures Congruent(P, (low + x * (high - low)) * b, Interpolate(low, high, x) * b)
  {
    TimesReduced(P, low + x * (high - low), b);
  }

  lemma TimesReduced(n: int, v: int, b: int)
    requires n > 0
    ensures Congruent(n, v * b, (v % n) * b)
  {
    ModCongruent(n, v);
    CongruentProduct(n, v, v % n, b, b);
  }

  /** `n` rounds over `2^n` entries leave the extension at the point, for every `n`. */
  lemma {:induction false} RoundsEvaluate(values: seq<int>, point: seq<int>)
    requires |values| == Pow2(|point|) && forall i :: 0 <= i < |values| ==> Felt(values[i])
    ensures |Rounds(values, point)| == 1
    ensures Rounds(values, point)[0] == Extension(values, point, |values|) % P
    decreases |point|
  {
    hide Congruent;
    if point == [] {
      SingleEntry(values);
      DivisionUnique(values[0], P, 0, values[0]);
    } else {
      var layer := Layer(values, point[0]);
      LayerInField(values, point[0]);
      RoundsEvaluate(layer, point[1..]);
      RoundKeepsExtension(values, point, |layer|);
      SameResidue(P, Extension(values, point, |values|), Extension(layer, point[1..], |layer|));
    }
  }

  lemma SingleEntry(values: seq<int>)
    requires |values| == 1
    ensures Extension(values, [], 1) == values[0]
  {
    assert Extension(values, [], 0) == 0;
  }

  lemma LayerInField(values: seq<int>, challenge: int)
    ensures forall i :: 0 <= i < |Layer(values, challenge)| ==> Felt(Layer(values, challenge)[i])
  {
  }

  // ----- boolean points select table entries -----

  /** The point spelling the bits of an index. */
  function IndexPoint(i: nat, n: nat): (point: seq<int>)
    ensures |point| == n
    decreases n
  {
    if n == 0 then [] else [i % 2] + IndexPoint(i / 2, n - 1)
  }

  lemma {:induction false} BasisSelects(i: nat, j: nat, n: nat)
    requires i < Pow2(n) && j < Pow2(n)
    ensures Basis(j, IndexPoint(i, n)) == if i == j then 1 else 0
    decreases n
  {
    if n > 0 {
      BasisSelects(i / 2, j / 2, n - 1);
      assert IndexPoint(i, n)[1..] == IndexPoint(i / 2, n - 1);
      assert i == 2 * (i / 2) + i % 2 && j == 2 * (j / 2) + j % 2;
    }
  }

  lemma {:induction false} ExtensionSelects(values: seq<int>, i: nat, n: nat, m: nat)
    requires m <= |values| == Pow2(n) && i < |values|
    ensures Extension(values, IndexPoint(i, n), m) == if i < m then values[i] else 0
  {
    if m > 0 {
      ExtensionSelects(values, i, n, m - 1);
      BasisSelects(i, m - 1, n);
    }
  }

  /** At a boolean point the rounds return the indexed entry. */
  lemma BooleanPointSelects(values: seq<int>, i: nat, n: nat)
    requires |values| == Pow2(n) && i < |values| && forall k :: 0 <= k < |values| ==> Felt(values[k])
    ensures |Rounds(values, IndexPoint(i, n))| == 1 && Rounds(values, IndexPoint(i, n))[0] == values[i]
  {
    RoundsEvaluate(values, IndexPoint(i, n));
    ExtensionSelects(values, i, n, |values|);
    DivisionUnique(values[i], P, 0, values[i]);
  }

  // ----- the loops -----

  /** One in-place round over the first `length` entries; the caller then truncates to half. */
  method FoldBinaryLayer(values: array<int>, length: nat, challenge: int) returns (ok: bool)
    requires length <= values.Length
    modifies values
    ensures ok <==> length >= 2 && length % 2 == 0
    ensures !ok ==> values[..] == old(values[..])
    ensures ok ==> values[..length / 2] == Layer(old(values[..length]), challenge)
  {
    hide Interpolate;
    if length < 2 || length % 2 != 0 { return false; }
    var before := values[..length];
    for pair := 0 to length / 2
      invariant forall k :: pair <= k < length ==> values[k] == before[k]
      invariant forall k :: 0 <= k < pair ==> values[k] == Interpolate(before[2 * k], before[2 * k + 1], challenge)
    {
      var low, high := values[2 * pair], values[2 * pair + 1];
      values[pair] := Interpolate(low, high, challenge);
    }
    return true;
  }

  lemma Half(n: nat)
    requires n > 0
    ensures Pow2(n) / 2 == Pow2(n - 1) && Pow2(n) >= 2 && Pow2(n) % 2 == 0
  {
  }

  /** `evaluate_multilinear`: fold one coordinate after another; a table of the wrong size is refused. */
  method EvaluateMultilinear(evaluations: seq<int>, point: seq<int>) returns (r: Option<int>)
    requires forall i :: 0 <= i < |evaluations| ==> Felt(evaluations[i])
    ensures r.Some? <==> |evaluations| == Pow2(|point|)
    ensures r.Some? ==> r.value == Extension(evaluations, point, |evaluations|) % P
  {
    hide Extension, Layer;
    if |evaluations| != Pow2(|point|) { return None; }
    var layer := new int[|evaluations|](i requires 0 <= i < |evaluations| => evaluations[i]);
    var length: nat := |evaluations|;
    assert layer[..length] == evaluations;
    for k := 0 to |point|
      invariant length == Pow2(|point| - k) <= layer.Length
      invariant Rounds(layer[..length], point[k..]) == Rounds(evaluations, point)
    {
      Half(|point| - k);
      var ok := FoldBinaryLayer(layer, length, point[k]);
      assert point[k..][1..] == point[k + 1..];
      length := length / 2;
    }
    RoundsEvaluate(evaluations, point);
    assert point[|point|..] == [];
    return Some(layer[0]);
  }

  // ----- the device kernel -----

  const BlockSize: nat := 256

  function DivCeil(n: nat, d: nat): nat
    requires d > 0
  {
    (n + d - 1) / d
  }

  function ThreadIndex(block: nat, lane: nat): nat { block * BlockSize + lane }

  /** Every output index has exactly one thread in the launch grid. */
  lemma GridCovers(length: nat, index: nat, block: nat, lane: nat)
    requires index < length && lane < BlockSize
    ensures index / BlockSize < DivCeil(length, BlockSize) && ThreadIndex(index / BlockSize, index % BlockSize) == index
    ensures ThreadIndex(block, lane) == index <==> block == index / BlockSize && lane == index % BlockSize
  {
    if ThreadIndex(block, lane) == index { DivisionUnique(index, BlockSize, block, lane); }
  }

  predicate AllCanonical(input: seq<Element>) {
    forall i :: 0 <= i < |input| ==> input[i].Canonical()
  }

  /** What thread `index` computes, when its pair and its slot exist. */
  function Thread(input: seq<Element>, challenge: Element, index: nat): Element
    requires 2 * index + 1 < |input|
  {
    Fold(input[2 * index], input[2 * index + 1], challenge)
  }

  /** One thread: out-of-range threads and non-canonical limbs write nothing. */
  method RunThread(input: seq<Element>, challenge: Element, output: array<Element>, index: nat)
    requires |input| >= 2 * output.Length
    modifies output
    ensures forall k :: 0 <= k < output.Length && k != index ==> output[k] == old(output[k])
    ensures index < output.Length && challenge.Canonical()
            && input[2 * index].Canonical() && input[2 * index + 1].Canonical()
            ==> output[index] == Thread(input, challenge, index)
  {
    if index >= output.Length { return; }
    var low, high := input[2 * index], input[2 * index + 1];
    assert low.Canonical() ==> FromCanonicalLimbs(low.low, low.high) == Some(low)
      by { if low.Canonical() { CanonicalTest(low.low, low.high); } }
    assert high.Canonical() ==> FromCanonicalLimbs(high.low, high.high) == Some(high)
      by { if high.Canonical() { CanonicalTest(high.low, high.high); } }
    assert challenge.Canonical() ==> FromCanonicalLimbs(challenge.low, challenge.high) == Some(challenge)
      by { if challenge.Canonical() { CanonicalTest(challenge.low, challenge.high); } }
    if FromCanonicalLimbs(low.low, low.high).None? || FromCanonicalLimbs(high.low, high.high).None?
       || FromCanonicalLimbs(challenge.low, challenge.high).None? { return; }
    output[index] := Fold(low, high, challenge);
  }

  /** The whole launch, block by block and lane by lane, writes the folded layer. */
  method LaunchFold(input: seq<Element>, challenge: Element) returns (output: array<Element>)
    requires AllCanonical(input) && challenge.Canonical() && |input| >= 2 && |input| % 2 == 0
    ensures output.Length == |input| / 2
    ensures forall k :: 0 <= k < output.Length ==> output[k] == Thread(input, challenge, k)
  {
    hide Fold, Element.Canonical;
    var length := |input| / 2;
    output := new Element[length](_ => Element(0, 0));
    var grid := DivCeil(length, BlockSize);
    for block := 0 to grid
      invariant forall k :: 0 <= k < block * BlockSize && k < length ==> output[k] == Thread(input, challenge, k)
    {
      for lane := 0 to BlockSize
        invariant forall k :: 0 <= k < block * BlockSize + lane && k < length ==>
                  output[k] == Thread(input, challenge, k)
      {
        RunThread(input, challenge, output, ThreadIndex(block, lane));
      }
    }
    assert grid * BlockSize >= length;
  }

  function Values(input: seq<Element>): (r: seq<int>)
    ensures |r| == |input|
  {
    seq(|input|, i requires 0 <= i < |input| => input[i].Value())
  }

  /** The limb kernel refines the field fold. */
  lemma KernelRefinesLayer(input: seq<Element>, challenge: Element, k: nat)
    requires AllCanonical(input) && challenge.Canonical() && k < |input| / 2
    ensures Thread(input, challenge, k).Canonical()
    ensures Thread(input, challenge, k).Value() == Layer(Values(input), challenge.Value())[k]
  {
    hide Fold;
    FoldExact(input[2 * k], input[2 * k + 1], challenge);
  }
}
