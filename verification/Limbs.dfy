/** Two-limb arithmetic modulo `2^128 - 0xffffa7f7` with explicit carries. */
module Limbs {

  import opened Wrappers
  import opened Modulus

  const W: int := 0x1_0000_0000_0000_0000
  const Offset: int := 0xffff_a7f7
  const ModulusLow: int := W - Offset

  predicate Word(x: int) { 0 <= x < W }

  datatype Flagged = Flagged(value: int, carry: bool)
  datatype Wide = Wide(low: int, high: int)

  function OverflowingAdd(a: int, b: int): Flagged {
    if a + b >= W then Flagged(a + b - W, true) else Flagged(a + b, false)
  }
  function OverflowingSub(a: int, b: int): Flagged {
    if a - b < 0 then Flagged(a - b + W, true) else Flagged(a - b, false)
  }
  function CarryingMulAdd(a: int, b: int, c: int, d: int): Wide { Wide((a * b + c + d) % W, (a * b + c + d) / W) }
  function WrappingAdd(a: int, b: int): int { (a + b) % W }
  function WrappingSub(a: int, b: int): int { (a - b) % W }
  function FromBool(b: bool): int { if b then 1 else 0 }

  datatype Element = Element(low: int, high: int) {
    predicate Words() { Word(low) && Word(high) }
    function Value(): int { low + W * high }
    predicate Canonical() { Words() && Value() < P }
  }

  function FromCanonicalLimbs(low: int, high: int): Option<Element> {
    if high != W - 1 || low < ModulusLow then Some(Element(low, high)) else None
  }

  /** The limb test accepts exactly the values below the modulus. */
  lemma CanonicalTest(low: int, high: int)
    requires Word(low) && Word(high)
    ensures FromCanonicalLimbs(low, high).Some? <==> Element(low, high).Canonical()
  {
  }

  // ----- the operations, limb by limb -----

  function CanonicalizeAfterAdd(low: int, high: int, overflow: bool): Element {
    var l := OverflowingAdd(low, Offset);
    var h := OverflowingAdd(high, FromBool(l.carry));
    if overflow || h.carry then Element(l.value, h.value) else Element(low, high)
  }

  function AddMod(a: Element, b: Element): Element {
    var low := OverflowingAdd(a.low, b.low);
    var partial := OverflowingAdd(a.high, b.high);
    var high := OverflowingAdd(partial.value, FromBool(low.carry));
    CanonicalizeAfterAdd(low.value, high.value, partial.carry || high.carry)
  }

  function SubtractOffset(low: int, high: int): Element {
    var l := OverflowingSub(low, Offset);
    Element(l.value, WrappingSub(high, FromBool(l.carry)))
  }

  function SubMod(a: Element, b: Element): Element {
    var low := OverflowingSub(a.low, b.low);
    var partial := OverflowingSub(a.high, b.high);
    var high := OverflowingSub(partial.value, FromBool(low.carry));
    if partial.carry || high.carry then SubtractOffset(low.value, high.value) else Element(low.value, high.value)
  }

  datatype Product = Product(r0: int, r1: int, r2: int, r3: int) {
    predicate Words() { Word(r0) && Word(r1) && Word(r2) && Word(r3) }
    function Value(): int { r0 + W * r1 + W * W * (r2 + W * r3) }
  }

  function MultiplyWide(a: Element, b: Element): Product {
    var x := CarryingMulAdd(a.low, b.low, 0, 0);
    var y := CarryingMulAdd(a.low, b.high, x.high, 0);
    var z := CarryingMulAdd(a.high, b.low, 0, y.low);
    var t := CarryingMulAdd(a.high, b.high, y.high, z.high);
    Product(x.low, z.low, t.low, t.high)
  }

  datatype Folded = Folded(t0: int, t1: int, t2: int) {
    predicate Words() { Word(t0) && Word(t1) && Word(t2) }
    function Value(): int { t0 + W * t1 + W * W * t2 }
  }

  /** The first Solinas fold; the top limb is added up with wrapping additions. */
  function FoldWide(r: Product): Folded {
    var x := CarryingMulAdd(Offset, r.r2, 0, 0);
    var y := CarryingMulAdd(Offset, r.r3, 0, 0);
    var t0 := OverflowingAdd(r.r0, x.low);
    var a := OverflowingAdd(r.r1, x.high);
    var b := OverflowingAdd(a.value, y.low);
    var t1 := OverflowingAdd(b.value, FromBool(t0.carry));
    var t2 := WrappingAdd(WrappingAdd(WrappingAdd(y.high, FromBool(a.carry)), FromBool(b.carry)), FromBool(t1.carry));
    Folded(t0.value, t1.value, t2)
  }

  function FoldHighLimb(t: Folded): Element {
    var x := CarryingMulAdd(Offset, t.t2, 0, 0);
    var low := OverflowingAdd(t.t0, x.low);
    var partial := OverflowingAdd(t.t1, x.high);
    var high := OverflowingAdd(partial.value, FromBool(low.carry));
    CanonicalizeAfterAdd(low.value, high.value, partial.carry || high.carry)
  }

  function MulMod(a: Element, b: Element): Element { FoldHighLimb(FoldWide(MultiplyWide(a, b))) }

  function Fold(low: Element, high: Element, challenge: Element): Element {
    AddMod(low, MulMod(challenge, SubMod(high, low)))
  }

  // ----- addition and subtraction -----

  /** One conditional reduction suffices below twice the modulus. */
  lemma CanonicalizeExact(low: int, high: int, overflow: bool)
    requires Word(low) && Word(high)
    requires low + W * high + (if overflow then W * W else 0) < 2 * P
    ensures
      var s := low + W * high + (if overflow then W * W else 0);
      var r := CanonicalizeAfterAdd(low, high, overflow);
      r.Canonical() && r.Value() == (if s < P then s else s - P)
  {
  }

  lemma SmallRemainder(s: int, r: int)
    requires 0 <= s < 2 * P && r == (if s < P then s else s - P)
    ensures r == s % P
  {
    DivisionUnique(s, P, if s < P then 0 else 1, r);
  }

  /** The raw limb sum, with one carry out. */
  lemma RawSum(a: Element, b: Element)
    requires a.Words() && b.Words()
    ensures
      var low := OverflowingAdd(a.low, b.low);
      var partial := OverflowingAdd(a.high, b.high);
      var high := OverflowingAdd(partial.value, FromBool(low.carry));
      && Word(low.value) && Word(high.value)
      && low.value + W * high.value + (if partial.carry || high.carry then W * W else 0) == a.Value() + b.Value()
  {
    var low := OverflowingAdd(a.low, b.low);
    var partial := OverflowingAdd(a.high, b.high);
    var high := OverflowingAdd(partial.value, FromBool(low.carry));
    assert !(partial.carry && high.carry);
    assert low.value == a.low + b.low - W * FromBool(low.carry);
    assert high.value == a.high + b.high + FromBool(low.carry) - W * FromBool(partial.carry || high.carry);
  }

  lemma AddModExact(a: Element, b: Element)
    requires a.Canonical() && b.Canonical()
    ensures AddMod(a, b).Canonical() && AddMod(a, b).Value() == (a.Value() + b.Value()) % P
  {
    hide CanonicalizeAfterAdd, OverflowingAdd, FromBool;
    RawSum(a, b);
    var low := OverflowingAdd(a.low, b.low);
    var partial := OverflowingAdd(a.high, b.high);
    var high := OverflowingAdd(partial.value, FromBool(low.carry));
    CanonicalizeExact(low.value, high.value, partial.carry || high.carry);
    SmallRemainder(a.Value() + b.Value(), AddMod(a, b).Value());
  }

  lemma SubModExact(a: Element, b: Element)
    requires a.Canonical() && b.Canonical()
    ensures SubMod(a, b).Canonical() && SubMod(a, b).Value() == (a.Value() - b.Value()) % P
  {
    var low := OverflowingSub(a.low, b.low);
    var partial := OverflowingSub(a.high, b.high);
    var high := OverflowingSub(partial.value, FromBool(low.carry));
    var borrow := partial.carry || high.carry;
    assert low.value + W * high.value == a.Value() - b.Value() + (if borrow then W * W else 0);
    assert borrow <==> a.Value() < b.Value();
    if borrow {
      OffsetExact(low.value, high.value);
      DivisionUnique(a.Value() - b.Value(), P, -1, a.Value() - b.Value() + P);
    } else {
      DivisionUnique(a.Value() - b.Value(), P, 0, a.Value() - b.Value());
    }
  }

  lemma OffsetExact(low: int, high: int)
    requires Word(low) && Word(high) && low + W * high >= Offset
    ensures SubtractOffset(low, high).Words() && SubtractOffset(low, high).Value() == low + W * high - Offset
  {
    var l := OverflowingSub(low, Offset);
    if l.carry {
      assert high >= 1;
      DivisionUnique(high - 1, W, 0, high - 1);
    } else {
      DivisionUnique(high, W, 0, high);
    }
  }

  // ----- multiplication -----

  lemma CarryingExact(a: int, b: int, c: int, d: int)
    requires Word(a) && Word(b) && Word(c) && Word(d)
    ensures
      var r := CarryingMulAdd(a, b, c, d);
      Word(r.low) && Word(r.high) && r.low + W * r.high == a * b + c + d
  {
    var v := a * b + c + d;
    ProductBound(a, b, W - 1, W - 1);
    assert v == W * (v / W) + v % W;
    Monotone(W, W, v / W);
  }

  lemma ProductBound(a: int, b: int, m: int, n: int)
    requires 0 <= a <= m && 0 <= b <= n
    ensures 0 <= a * b <= m * n
  {
    Monotone(a, b, n);
    Monotone(n, a, m);
  }

  lemma Monotone(w: int, x: int, y: int)
    requires w >= 0
    ensures x <= y ==> w * x <= w * y && x * w <= y * w
  {
  }

  /** Four schoolbook limbs hold the whole product. */
  lemma MultiplyWideExact(a: Element, b: Element)
    requires a.Words() && b.Words()
    ensures MultiplyWide(a, b).Words() && MultiplyWide(a, b).Value() == a.Value() * b.Value()
  {
    hide CarryingMulAdd;
    var x := CarryingMulAdd(a.low, b.low, 0, 0);
    CarryingExact(a.low, b.low, 0, 0);
    var y := CarryingMulAdd(a.low, b.high, x.high, 0);
    CarryingExact(a.low, b.high, x.high, 0);
    var z := CarryingMulAdd(a.high, b.low, 0, y.low);
    CarryingExact(a.high, b.low, 0, y.low);
    var t := CarryingMulAdd(a.high, b.high, y.high, z.high);
    CarryingExact(a.high, b.high, y.high, z.high);
    Schoolbook(a.low, a.high, b.low, b.high);
  }

  lemma Schoolbook(a0: int, a1: int, b0: int, b1: int)
    ensures (a0 + W * a1) * (b0 + W * b1) == a0 * b0 + W * (a0 * b1) + W * (a1 * b0) + W * W * (a1 * b1)
  {
    calc {
      (a0 + W * a1) * (b0 + W * b1);
      a0 * (b0 + W * b1) + (W * a1) * (b0 + W * b1);
      { Distribute(a0, b0, b1); Distribute(a1, b0, b1); Shift(a1, b0 + W * b1); }
      a0 * b0 + W * (a0 * b1) + W * (a1 * b0 + W * (a1 * b1));
    }
  }

  lemma Distribute(a: int, b: int, c: int)
    ensures a * (b + W * c) == a * b + W * (a * c)
  {
    assert a * (W * c) == W * (a * c);
  }

  lemma Shift(a: int, b: int)
    ensures (W * a) * b == W * (a * b)
  {
  }

  lemma OffsetProduct(r: int)
    requires Word(r)
    ensures
      var x := CarryingMulAdd(Offset, r, 0, 0);
      Word(x.low) && 0 <= x.high < Offset && x.low + W * x.high == Offset * r
  {
    CarryingExact(Offset, r, 0, 0);
    hide CarryingMulAdd;
    Monotone(W, Offset, CarryingMulAdd(Offset, r, 0, 0).high);
  }

  /** The three carries never wrap the top limb: it is at most the offset. */
  lemma TopLimbNeverWraps(high: int, a: bool, b: bool, c: bool)
    requires 0 <= high < Offset
    ensures WrappingAdd(WrappingAdd(WrappingAdd(high, FromBool(a)), FromBool(b)), FromBool(c))
            == high + FromBool(a) + FromBool(b) + FromBool(c)
  {
    DivisionUnique(high + FromBool(a), W, 0, high + FromBool(a));
    DivisionUnique(high + FromBool(a) + FromBool(b), W, 0, high + FromBool(a) + FromBool(b));
    DivisionUnique(high + FromBool(a) + FromBool(b) + FromBool(c), W, 0,
                   high + FromBool(a) + FromBool(b) + FromBool(c));
  }

  lemma FoldWideExact(r: Product)
    requires r.Words()
    ensures FoldWide(r).Words() && FoldWide(r).t2 <= Offset
    ensures FoldWide(r).Value() == r.r0 + W * r.r1 + Offset * (r.r2 + W * r.r3)
  {
    hide CarryingMulAdd, WrappingAdd;
    var x, y := CarryingMulAdd(Offset, r.r2, 0, 0), CarryingMulAdd(Offset, r.r3, 0, 0);
    OffsetProduct(r.r2);
    OffsetProduct(r.r3);
    var t0 := OverflowingAdd(r.r0, x.low);
    var a := OverflowingAdd(r.r1, x.high);
    var b := OverflowingAdd(a.value, y.low);
    var t1 := OverflowingAdd(b.value, FromBool(t0.carry));
    TopLimbNeverWraps(y.high, a.carry, b.carry, t1.carry);
    Distribute(Offset, r.r2, r.r3);
    TopBound(FoldWide(r), r);
  }

  lemma TopBound(t: Folded, r: Product)
    requires r.Words() && Word(t.t0) && Word(t.t1) && t.Value() == r.r0 + W * r.r1 + Offset * (r.r2 + W * r.r3)
    ensures t.t2 <= Offset
  {
    Monotone(W * W, Offset + 1, t.t2);
  }

  lemma FoldHighLimbExact(t: Folded)
    requires t.Words() && t.t2 <= Offset
    ensures FoldHighLimb(t).Canonical()
    ensures
      var s := t.t0 + W * t.t1 + Offset * t.t2;
      s < 2 * P && FoldHighLimb(t).Value() == (if s < P then s else s - P)
  {
    var x := CarryingMulAdd(Offset, t.t2, 0, 0);
    OffsetProduct(t.t2);
    hide CarryingMulAdd, CanonicalizeAfterAdd;
    assert Offset * t.t2 <= Offset * Offset;
    var low := OverflowingAdd(t.t0, x.low);
    var partial := OverflowingAdd(t.t1, x.high);
    var high := OverflowingAdd(partial.value, FromBool(low.carry));
    assert !(partial.carry && high.carry);
    CanonicalizeExact(low.value, high.value, partial.carry || high.carry);
  }

  /** Each fold subtracts a multiple of the modulus. */
  lemma FoldsAreCongruent(x: int, r: int, t: int, rest: int, top: int, last: int, value: int)
    requires x == rest + W * W * r && t == rest + Offset * r
    requires t == last + W * W * top
    requires value == last + Offset * top || value == last + Offset * top - P
    ensures exists q: int :: x == q * P + value
  {
    var k := if value == last + Offset * top then 0 else 1;
    assert (r + top + k) * P == r * P + top * P + k * P;
    assert x == (r + top + k) * P + value;
  }

  /** `mul_mod` returns the canonical representative of the product, with one final conditional reduction. */
  lemma MulModExact(a: Element, b: Element)
    requires a.Canonical() && b.Canonical()
    ensures MulMod(a, b).Canonical() && MulMod(a, b).Value() == (a.Value() * b.Value()) % P
  {
    hide MultiplyWide, FoldWide, FoldHighLimb;
    var r := MultiplyWide(a, b);
    MultiplyWideExact(a, b);
    var t := FoldWide(r);
    FoldWideExact(r);
    FoldHighLimbExact(t);
    var value := FoldHighLimb(t).Value();
    FoldsAreCongruent(r.Value(), r.r2 + W * r.r3, t.Value(), r.r0 + W * r.r1, t.t2, t.t0 + W * t.t1, value);
    var q: int :| r.Value() == q * P + value;
    DivisionUnique(r.Value(), P, q, value);
  }

  /** `fold` interpolates in the field. */
  lemma FoldExact(low: Element, high: Element, challenge: Element)
    requires low.Canonical() && high.Canonical() && challenge.Canonical()
    ensures Fold(low, high, challenge).Canonical()
    ensures Fold(low, high, challenge).Value() == (low.Value() + challenge.Value() * (high.Value() - low.Value())) % P
  {
    hide AddMod, MulMod, SubMod, Element.Value, Element.Canonical;
    var difference := SubMod(high, low);
    SubModExact(high, low);
    var scaled := MulMod(challenge, difference);
    MulModExact(challenge, difference);
    AddModExact(low, scaled);
    ModuloInside(P, low.Value(), challenge.Value(), high.Value() - low.Value());
  }

  lemma ModuloInside(n: int, l: int, c: int, d: int)
    requires n > 0
    ensures (l + (c * (d % n)) % n) % n == (l + c * d) % n
  {
    ModCongruent(n, d);
    ModCongruent(n, c * (d % n));
    CongruentProduct(n, c, c, d, d % n);
    CongruentSteps(n, c * d, c * (d % n), (c * (d % n)) % n);
    CongruentSum(n, l, l, c * d, (c * (d % n)) % n);
    SameResidue(n, l + c * d, l + (c * (d % n)) % n);
  }
}
