/** What the register instructions compute: sums, logic bit by bit, rotations, bit operations and decimal adjustment. */
module AluLaws {

  import opened Wrappers
  import opened Modulus
  import opened Field
  import opened Bus
  import opened Decimal
  import opened Execution
  import Isa

  // ----- registers -----

  /** A register holds what was last put in it, and putting a byte in one leaves the others. */
  lemma RegisterWritten(c: Core, r: Isa.Reg8, v: Octet, q: Isa.Reg8)
    ensures Reg(SetReg(c, r, v), q) == if q == r then v else Reg(c, q)
    ensures SetReg(c, r, v).(regs := c.regs) == c
  {
  }

  /** A pair is its two registers, high byte first. */
  lemma PairsAreRegisters(c: Core)
    ensures Pair(c, Isa.BC) == 256 * Reg(c, Isa.B) + Reg(c, Isa.C)
    ensures Pair(c, Isa.DE) == 256 * Reg(c, Isa.D) + Reg(c, Isa.E)
    ensures Pair(c, Isa.HL) == 256 * Reg(c, Isa.H) + Reg(c, Isa.L)
  {
  }

  lemma PairWritten(c: Core, p: Isa.Reg16, v: Address, q: Isa.Reg16)
    ensures Pair(SetPair(c, p, v), q) == if q == p then v else Pair(c, q)
    ensures SetPair(c, p, v).(regs := c.regs, sp := c.sp) == c && SetPair(c, p, v).regs.a == c.regs.a
    ensures p != Isa.SP ==> SetPair(c, p, v).sp == c.sp
  {
  }

  // ----- eight-bit sums -----

  /** ADD, ADC, SUB, SBC and CP: the exact sum or difference with carry and borrow, the half carry of the low digits. */
  lemma SumsExact(op: Isa.AluOp, a: Octet, v: Octet, f: Flags)
    requires op in {Isa.AddA, Isa.AddCarryA, Isa.SubA, Isa.SubCarryA, Isa.CompareA}
    ensures
      var r := ApplyAlu(op, a, v, f);
      var c := if op == Isa.AddCarryA || op == Isa.SubCarryA then AsCarry(f.carry) else 0;
      && (r.flags.subtract <==> op != Isa.AddA && op != Isa.AddCarryA) && (r.flags.zero <==> r.value == 0)
      && (!r.flags.subtract ==> r.value + 256 * AsCarry(r.flags.carry) == a + v + c)
      && (r.flags.subtract ==> r.value - 256 * AsCarry(r.flags.carry) == a - v - c)
      && (!r.flags.subtract ==> (r.flags.halfCarry <==> a % 16 + v % 16 + c > 15))
      && (r.flags.subtract ==> (r.flags.halfCarry <==> a % 16 < v % 16 + c))
  {
    hide Add, Subtract;
    var carry := (op == Isa.AddCarryA || op == Isa.SubCarryA) && f.carry;
    AddExact(a, v, carry);
    SubtractExact(a, v, carry);
    ZeroOfSum(a, v, carry);
  }

  lemma ZeroOfSum(a: Octet, v: Octet, c: bool)
    ensures Add(a, v, c).flags.zero <==> Add(a, v, c).value == 0
    ensures Subtract(a, v, c).flags.zero <==> Subtract(a, v, c).value == 0
  {
  }

  /** INC is ADD 1 and DEC is SUB 1, but for the carry flag, which they keep. */
  lemma StepsAreSums(v: Octet, f: Flags)
    ensures Increment(v, f) == Add(v, 1, false).(flags := Add(v, 1, false).flags.(carry := f.carry))
    ensures Decrement(v, f) == Subtract(v, 1, false).(flags := Subtract(v, 1, false).flags.(carry := f.carry))
  {
    hide Add, Subtract, Increment, Decrement;
    IncrementIsSum(v, f);
    DecrementIsDifference(v, f);
  }

  lemma IncrementIsSum(v: Octet, f: Flags)
    ensures Increment(v, f) == Add(v, 1, false).(flags := Add(v, 1, false).flags.(carry := f.carry))
  {
    hide WrapByte;
    var r := if v == 255 then 0 else v + 1;
    WrapAdd(v + 1, r);
    WrapAdd(r, r);
    DivisionUnique(v + 1, 256, if v == 255 then 1 else 0, r);
  }

  lemma DecrementIsDifference(v: Octet, f: Flags)
    ensures Decrement(v, f) == Subtract(v, 1, false).(flags := Subtract(v, 1, false).flags.(carry := f.carry))
  {
    hide WrapByte;
    var r := if v == 0 then 255 else v - 1;
    WrapSub(v - 1, r);
    WrapSub(r, r);
    DivisionUnique(v - 1, 256, if v == 0 then -1 else 0, r);
  }

  /** DEC undoes INC and INC undoes DEC, keeping the carry. */
  lemma StepsUndo(v: Octet, f: Flags)
    ensures Decrement(Increment(v, f).value, Increment(v, f).flags).value == v
    ensures Increment(Decrement(v, f).value, Decrement(v, f).flags).value == v
    ensures Decrement(Increment(v, f).value, Increment(v, f).flags).flags.carry == f.carry
  {
  }

  // ----- logic -----

  /** The operation on one bit. */
  predicate OnBits(op: Isa.AluOp, p: bool, q: bool) {
    match op case AndA => p && q case XorA => (p || q) && !(p && q) case _ => p || q
  }

  lemma {:induction false} BitsCombine(op: Isa.AluOp, x: int, y: int, n: nat, k: nat)
    requires k < n && op in {Isa.AndA, Isa.XorA, Isa.OrA}
    ensures BitByBit(op, x, y, n) / Pow2(k) % 2 == 1 <==> OnBits(op, x / Pow2(k) % 2 == 1, y / Pow2(k) % 2 == 1)
    decreases n
  {
    var low, rest := BitByBit(op, x, y, n) % 2, BitByBit(op, x / 2, y / 2, n - 1);
    DivisionUnique(BitByBit(op, x, y, n), 2, rest, BitByBit(op, x, y, n) - 2 * rest);
    if k > 0 {
      BitsCombine(op, x / 2, y / 2, n - 1, k - 1);
      Halves(BitByBit(op, x, y, n), Pow2(k - 1));
      Halves(x, Pow2(k - 1));
      Halves(y, Pow2(k - 1));
    }
  }

  lemma Halves(x: int, w: int)
    requires w > 0
    ensures x / (2 * w) == x / 2 / w
  {
    var q := x / 2 / w;
    var r := x / 2 % w;
    var s := x % 2;
    assert x == 2 * (w * q + r) + s;
    assert 2 * (w * q) == (2 * w) * q;
    DivisionUnique(x, 2 * w, q, 2 * r + s);
  }

  /** AND, XOR and OR act on each of the eight bits; only the zero flag depends on the result, and AND sets half
      carry. */
  lemma LogicExact(op: Isa.AluOp, a: Octet, v: Octet, f: Flags, k: nat)
    requires op in {Isa.AndA, Isa.XorA, Isa.OrA} && k < 8
    ensures BitOn(ApplyAlu(op, a, v, f).value, k) <==> OnBits(op, BitOn(a, k), BitOn(v, k))
    ensures ApplyAlu(op, a, v, f).flags == Flags(ApplyAlu(op, a, v, f).value == 0, false, op == Isa.AndA, false)
  {
    hide BitByBit;
    BitsCombine(op, a, v, 8, k);
  }

  /** Bytes with the same bits are the same. */
  lemma BitsDetermine(a: Octet, b: Octet)
    requires forall k: nat :: k < 8 ==> (BitOn(a, k) <==> BitOn(b, k))
    ensures a == b
  {
    hide BitOn, Pow2;
    PowerValues();
    SameBit(a, b, 0, 1);
    SameBit(a, b, 1, 2);
    SameBit(a, b, 2, 4);
    SameBit(a, b, 3, 8);
    SameBit(a, b, 4, 16);
    SameBit(a, b, 5, 32);
    SameBit(a, b, 6, 64);
    SameBit(a, b, 7, 128);
    EightBits(a);
    EightBits(b);
  }

  lemma SameBit(a: Octet, b: Octet, k: nat, w: int)
    requires k < 8 && w == Pow2(k) && (BitOn(a, k) <==> BitOn(b, k))
    ensures w > 0 && a / w % 2 == b / w % 2
  {
    hide Pow2;
  }

  lemma EightBits(a: int)
    requires 0 <= a < 256
    ensures a == a % 2 + 2 * (a / 2 % 2) + 4 * (a / 4 % 2) + 8 * (a / 8 % 2) + 16 * (a / 16 % 2) + 32 * (a / 32 % 2)
                 + 64 * (a / 64 % 2) + 128 * (a / 128 % 2)
  {
    assert a / 4 == a / 2 / 2 && a / 8 == a / 4 / 2 && a / 16 == a / 8 / 2 && a / 32 == a / 16 / 2;
    assert a / 64 == a / 32 / 2 && a / 128 == a / 64 / 2;
  }

  /** XOR with the same byte twice restores the accumulator. */
  lemma XorUndoes(a: Octet, v: Octet, f: Flags)
    ensures ApplyAlu(Isa.XorA, ApplyAlu(Isa.XorA, a, v, f).value, v, f).value == a
  {
    hide ApplyAlu, BitOn;
    var b := ApplyAlu(Isa.XorA, a, v, f).value;
    var c := ApplyAlu(Isa.XorA, b, v, f).value;
    forall k: nat | k < 8 ensures BitOn(c, k) <==> BitOn(a, k) {
      LogicExact(Isa.XorA, a, v, f, k);
      LogicExact(Isa.XorA, b, v, f, k);
    }
    BitsDetermine(c, a);
  }

  // ----- bit operations -----

  /** SET and RES decide their own bit and leave the other seven. */
  lemma BitWritten(v: Octet, b: nat, on: bool, k: nat)
    requires b < 8 && k < 8
    ensures BitOn(WithBit(v, b, on), k) <==> if k == b then on else BitOn(v, k)
  {
    PowerValues();
    BitFits(v, b);
    hide Pow2;
    var w := Pow2(b);
    if BitOn(v, b) != on {
      var r := if on then v + w else v - w;
      OneBitMoves(v, r, b, on, k);
    }
  }

  /** Adding or removing a weight where there is room moves that bit alone. */
  lemma OneBitMoves(v: int, r: int, b: nat, on: bool, k: nat)
    requires 0 <= v < 256 && 0 <= r < 256 && b < 8 && k < 8
    requires v / Pow2(b) % 2 == (if on then 0 else 1) && r == (if on then v + Pow2(b) else v - Pow2(b))
    ensures r / Pow2(k) % 2 == if k == b then (if on then 1 else 0) else v / Pow2(k) % 2
  {
    hide Pow2;
    if k < b {
      BelowUnmoved(v, r, b, on, k);
    } else if k == b {
      Shifted(v, Pow2(b), if on then 1 else -1);
    } else {
      AboveUnmoved(v, r, b, on, k);
    }
  }

  /** A bit below the moved one sees an even change. */
  lemma BelowUnmoved(v: int, r: int, b: nat, on: bool, k: nat)
    requires k < b && r == (if on then v + Pow2(b) else v - Pow2(b))
    ensures r / Pow2(k) % 2 == v / Pow2(k) % 2
  {
    ScalePower(k, b);
    EvenPower(b - k);
    hide Pow2;
    var w, h := Pow2(k), Pow2(b - k - 1);
    var t := if on then 2 * h else -2 * h;
    assert r == v + w * t by { Reorder(w, h, on); }
    Shifted(v, w, t);
    EvenShift(v / w, if on then h else -h);
  }

  lemma EvenShift(x: int, y: int)
    ensures (x + 2 * y) % 2 == x % 2
  {
  }

  lemma Reorder(w: int, h: int, on: bool)
    ensures w * (if on then 2 * h else -2 * h) == if on then w * (2 * h) else -(w * (2 * h))
  {
  }

  lemma {:induction false} ScalePower(k: nat, b: nat)
    requires k <= b
    ensures Pow2(b) == Pow2(k) * Pow2(b - k)
  {
    if k > 0 { ScalePower(k - 1, b - 1); }
  }

  lemma Shifted(v: int, w: int, t: int)
    requires w > 0
    ensures (v + w * t) / w == v / w + t
  {
    assert v + w * t == w * (v / w + t) + v % w;
    DivisionUnique(v + w * t, w, v / w + t, v % w);
  }

  lemma EvenPower(n: nat)
    requires n > 0
    ensures Pow2(n) == 2 * Pow2(n - 1)
  {
  }

  /** A bit above the moved one keeps its place: nothing carries or borrows. */
  lemma AboveUnmoved(v: int, r: int, b: nat, on: bool, k: nat)
    requires 0 <= v && b < k
    requires v / Pow2(b) % 2 == (if on then 0 else 1) && r == (if on then v + Pow2(b) else v - Pow2(b))
    ensures r / Pow2(k) == v / Pow2(k)
  {
    ScalePower(b + 1, k);
    var w, h := Pow2(b), Pow2(k - b - 1);
    assert Pow2(b + 1) == 2 * w;
    HalfUnmoved(v, r, w, on);
    NestedDivision(v, 2 * w, h);
    NestedDivision(r, 2 * w, h);
  }

  lemma HalfUnmoved(v: int, r: int, w: int, on: bool)
    requires w > 0 && v / w % 2 == (if on then 0 else 1) && r == (if on then v + w else v - w)
    ensures r / (2 * w) == v / (2 * w)
  {
    var q := v / w / 2;
    var bit := v / w % 2;
    assert v / w == 2 * q + bit;
    assert v == w * (2 * q + bit) + v % w;
    assert w * (2 * q + bit) == (2 * w) * q + w * bit;
    DivisionUnique(v, 2 * w, q, w * bit + v % w);
    DivisionUnique(r, 2 * w, q, w * (1 - bit) + v % w);
  }

  lemma NestedDivision(v: int, p: int, h: int)
    requires p > 0 && h > 0
    ensures v / (p * h) == v / p / h
  {
    var q := v / p / h;
    var r := v / p % h;
    assert v == p * (h * q + r) + v % p;
    assert p * (h * q) == (p * h) * q;
    assert p * r + v % p < p * (r + 1) <= p * h;
    DivisionUnique(v, p * h, q, p * r + v % p);
  }

  // ----- rotations and shifts -----

  /** A rotation or shift as an equation between the byte, the old carry and the new one. */
  predicate Turned(cb: Isa.CbOp, v: int, carry: int, r: int, out: int) {
    match cb
    case Rlc => r + 255 * out == 2 * v
    case Rrc => 2 * r == v + 255 * out
    case Rl => r + 256 * out == 2 * v + carry
    case Rr => 2 * r + out == v + 256 * carry
    case Sla => r + 256 * out == 2 * v
    case Sra => 2 * r + out == v + (if v >= 128 then 256 else 0)
    case Srl => 2 * r + out == v
    case Swap => r / 16 == v % 16 && r % 16 == v / 16 && out == 0
    case _ => false
  }

  lemma RotateExact(cb: Isa.CbOp, v: Octet, carry: bool, zero: bool)
    requires Rotate(cb, v, carry, zero).Some?
    ensures
      var b := Rotate(cb, v, carry, zero).value;
      && Turned(cb, v, AsCarry(carry), b.value, AsCarry(b.flags.carry))
      && (b.flags.zero <==> zero && b.value == 0) && !b.flags.subtract && !b.flags.halfCarry
  {
  }

  /** Right undoes left and left undoes right, on the byte and on the carry. */
  lemma RotationsUndo(v: Octet, carry: bool, zero: bool)
    ensures
      var l := Rotate(Isa.Rl, v, carry, zero).value;
      var b := Rotate(Isa.Rr, l.value, l.flags.carry, zero).value;
      b.value == v && b.flags.carry == carry
    ensures
      var r := Rotate(Isa.Rr, v, carry, zero).value;
      var b := Rotate(Isa.Rl, r.value, r.flags.carry, zero).value;
      b.value == v && b.flags.carry == carry
    ensures Rotate(Isa.Rrc, Rotate(Isa.Rlc, v, carry, zero).value.value, carry, zero).value.value == v
    ensures Rotate(Isa.Swap, Rotate(Isa.Swap, v, carry, zero).value.value, carry, zero).value.value == v
  {
    hide Rotate, Turned;
    Rotates(Isa.Rl, v, carry, zero);
    Rotates(Isa.Rr, v, carry, zero);
    Rotates(Isa.Rlc, v, carry, zero);
    Rotates(Isa.Swap, v, carry, zero);
    var l, r := Rotate(Isa.Rl, v, carry, zero).value, Rotate(Isa.Rr, v, carry, zero).value;
    var c, w := Rotate(Isa.Rlc, v, carry, zero).value, Rotate(Isa.Swap, v, carry, zero).value;
    TurnedBack(Isa.Rl, Isa.Rr, v, carry, zero, l, l.flags.carry);
    TurnedBack(Isa.Rr, Isa.Rl, v, carry, zero, r, r.flags.carry);
    TurnedBack(Isa.Rlc, Isa.Rrc, v, carry, zero, c, carry);
    TurnedBack(Isa.Swap, Isa.Swap, v, carry, zero, w, carry);
  }

  /** `back` undoes `cb`, the carry too for the two that turn through it. */
  lemma TurnedBack(cb: Isa.CbOp, back: Isa.CbOp, v: Octet, carry: bool, zero: bool, b: ByteResult, between: bool)
    requires
      || (cb == Isa.Rl && back == Isa.Rr) || (cb == Isa.Rr && back == Isa.Rl)
      || (cb == Isa.Rlc && back == Isa.Rrc) || (cb == Isa.Swap && back == Isa.Swap)
    requires Rotate(cb, v, carry, zero) == Some(b) && (cb == Isa.Rl || cb == Isa.Rr ==> between == b.flags.carry)
    ensures Rotate(back, b.value, between, zero).Some?
    ensures
      var e := Rotate(back, b.value, between, zero).value;
      e.value == v && (cb == Isa.Rl || cb == Isa.Rr ==> e.flags.carry == carry)
  {
    hide Rotate, Turned;
    Rotates(back, b.value, between, zero);
    RotateExact(cb, v, carry, zero);
    RotateExact(back, b.value, between, zero);
    var e := Rotate(back, b.value, between, zero).value;
    if cb == Isa.Swap {
      SwapsBack(v, b.value, e.value, AsCarry(carry), AsCarry(between), AsCarry(b.flags.carry), AsCarry(e.flags.carry));
    } else {
      RotatesBack(cb, back, v, b.value, e.value, AsCarry(carry), AsCarry(b.flags.carry), AsCarry(e.flags.carry));
    }
  }

  lemma SwapsBack(v: Octet, r: Octet, e: Octet, carry: int, between: int, out: int, last: int)
    requires Turned(Isa.Swap, v, carry, r, out) && Turned(Isa.Swap, r, between, e, last)
    ensures e == v
  {
    Nibbles(v);
    Nibbles(e);
  }

  lemma RotatesBack(cb: Isa.CbOp, back: Isa.CbOp, v: Octet, r: Octet, e: Octet, carry: int, out: int, last: int)
    requires (cb == Isa.Rl && back == Isa.Rr) || (cb == Isa.Rr && back == Isa.Rl) || (cb == Isa.Rlc && back == Isa.Rrc)
    requires 0 <= carry <= 1 && 0 <= out <= 1 && 0 <= last <= 1
    requires Turned(cb, v, carry, r, out) && Turned(back, r, if cb == Isa.Rlc then carry else out, e, last)
    ensures e == v && (cb != Isa.Rlc ==> last == carry)
  {
  }

  lemma Nibbles(v: Octet)
    ensures v == 16 * (v / 16) + v % 16
  {
  }

  lemma Rotates(cb: Isa.CbOp, v: Octet, carry: bool, zero: bool)
    ensures Rotate(cb, v, carry, zero).Some? <==> !cb.TestBit? && !cb.ResetBit? && !cb.SetBit?
  {
  }

  // ----- sixteen bits -----

  /** ADD HL adds low bytes, then high bytes with that carry; it keeps the zero flag and clears the subtract flag. */
  lemma PairSumExact(x: Address, y: Address, f: Flags)
    ensures
      var r, low := AddPair(x, y, f), Add(x % 256, y % 256, false);
      var high := Add(x / 256, y / 256, low.flags.carry);
      && r.0 + 65536 * AsCarry(r.1.carry) == x + y
      && r.0 == 256 * high.value + low.value && r.1 == Flags(f.zero, false, high.flags.halfCarry, high.flags.carry)
  {
    var low := Add(x % 256, y % 256, false);
    var high := Add(x / 256, y / 256, low.flags.carry);
    AddExact(x % 256, y % 256, false);
    AddExact(x / 256, y / 256, low.flags.carry);
    hide Add;
    DivisionUnique(x + y, 65536, AsCarry(high.flags.carry), 256 * high.value + low.value);
    TwelveBits(x);
    TwelveBits(y);
  }

  lemma TwelveBits(x: Address)
    ensures x % 0x1000 == 256 * (x / 256 % 16) + x % 256 && x == 256 * (x / 256) + x % 256
  {
    assert x / 0x1000 == x / 256 / 16;
  }

  /** The signed distance of an offset byte. */
  lemma SignedExact(v: Octet)
    ensures -128 <= Signed(v) < 128 && (Signed(v) - v) % 256 == 0
  {
  }

  /** SP plus offset wraps at sixteen bits; its flags are those of adding the raw byte to the low byte of SP. */
  lemma SpOffsetExact(sp: Address, v: Octet)
    ensures
      var r, low := SpOffset(sp, v), Add(sp % 256, v, false);
      && (r.0 - sp - Signed(v)) % 65536 == 0 && r.0 % 256 == low.value
      && r.1 == Flags(false, false, low.flags.halfCarry, low.flags.carry)
  {
    hide Add;
    AddExact(sp % 256, v, false);
    var low := Add(sp % 256, v, false);
    WrapsTo(sp + Signed(v));
    LowByteOf(sp, v, AsCarry(low.flags.carry), low.value);
    LowDigits(sp);
  }

  lemma WrapsTo(t: int)
    ensures (Wrap16(t) - t) % 65536 == 0 && Wrap16(t) % 256 == t % 256
  {
    var q := t / 65536;
    DivisionUnique(t % 65536 - t, 65536, -q, 0);
    DivisionUnique(t, 256, 256 * q + t % 65536 / 256, t % 65536 % 256);
  }

  lemma LowByteOf(sp: Address, v: Octet, carry: int, low: int)
    requires 0 <= carry <= 1 && 0 <= low < 256 && low + 256 * carry == sp % 256 + v
    ensures (sp + Signed(v)) % 256 == low
  {
    DivisionUnique(sp + Signed(v), 256, sp / 256 + (if v >= 128 then -1 else 0) + carry, low);
  }

  lemma LowDigits(sp: Address)
    ensures sp % 256 % 16 == sp % 16
  {
    assert sp == 16 * (16 * (sp / 256) + sp % 256 / 16) + sp % 256 % 16;
    DivisionUnique(sp, 16, 16 * (sp / 256) + sp % 256 / 16, sp % 256 % 16);
  }

  // ----- the instructions -----

  /** The value of an operand that is not in memory. */
  function Operand(c: Core, o: Isa.Operand, imm: seq<Octet>): int {
    match o case Register(r) => Reg(c, r) case _ => if imm != [] then imm[0] else 0
  }

  /** The core after an instruction that touches A and the flags alone. */
  predicate OnlyA(c: Core, n: Core) { n == c.(regs := c.regs.(a := n.regs.a), flags := n.flags) }

  // What each class of register instruction leaves, as one core.

  lemma AluRuns(auth: Authority, x: Exec, op: Isa.AluOp, source: Isa.Operand, imm: seq<Octet>)
    requires source != Isa.AtHL && (source == Isa.ImmediateByte ==> imm != [])
    ensures
      var c := x.vm.core;
      var r := ApplyAlu(op, c.regs.a, Operand(c, source, imm), c.flags);
      var n := if op == Isa.CompareA then c.(flags := r.flags) else c.(regs := c.regs.(a := r.value), flags := r.flags);
      Execute(auth, x, Isa.Alu8(op, source), imm) == Ok(Got(WithCore(x, n), false))
  {
    hide ApplyAlu, Reg, ReadData;
  }

  lemma StepRuns(auth: Authority, x: Exec, r: Isa.Reg8, up: bool)
    ensures
      var c := x.vm.core;
      var b := if up then Increment(Reg(c, r), c.flags) else Decrement(Reg(c, r), c.flags);
      Execute(auth, x, if up then Isa.Increment8(Isa.Register(r)) else Isa.Decrement8(Isa.Register(r)), [])
      == Ok(Got(WithCore(x, SetReg(c, r, b.value).(flags := b.flags)), false))
  {
    hide Increment, Decrement, Reg, SetReg, ReadData, WriteData;
  }

  lemma CbRuns(auth: Authority, x: Exec, cb: Isa.CbOp, r: Isa.Reg8)
    requires Rotate(cb, Reg(x.vm.core, r), x.vm.core.flags.carry, true).Some?
    ensures
      var c := x.vm.core;
      var b := Rotate(cb, Reg(c, r), c.flags.carry, true).value;
      Execute(auth, x, Isa.Cb(cb, Isa.Register(r)), [])
      == Ok(Got(WithCore(x, SetReg(c, r, b.value).(flags := b.flags)), false))
  {
    Rotates(cb, Reg(x.vm.core, r), x.vm.core.flags.carry, true);
    hide Rotate, Reg, SetReg, ReadData, WriteData;
  }

  lemma ShortRotateRuns(auth: Authority, x: Exec, cb: Isa.CbOp)
    requires Rotate(cb, x.vm.core.regs.a, x.vm.core.flags.carry, false).Some?
    ensures
      var c := x.vm.core;
      var b := Rotate(cb, c.regs.a, c.flags.carry, false).value;
      Execute(auth, x, Isa.RotateAccumulator(cb), [])
      == Ok(Got(WithCore(x, c.(regs := c.regs.(a := b.value), flags := b.flags)), false))
  {
    hide Rotate, ReadData, WriteData;
  }

  lemma BitRuns(auth: Authority, x: Exec, b: int, r: Isa.Reg8, on: bool)
    ensures
      var c := x.vm.core;
      Execute(auth, x, Isa.Cb(if on then Isa.SetBit(b) else Isa.ResetBit(b), Isa.Register(r)), [])
      == Ok(Got(WithCore(x, SetReg(c, r, WithBit(Reg(c, r), b, on))), false))
  {
    hide BitOn, WithBit, Reg, SetReg, ReadData, WriteData;
  }

  lemma TestRuns(auth: Authority, x: Exec, b: int, r: Isa.Reg8)
    ensures
      var c := x.vm.core;
      Execute(auth, x, Isa.Cb(Isa.TestBit(b), Isa.Register(r)), [])
      == Ok(Got(WithCore(x, c.(flags := Flags(!BitOn(Reg(c, r), b), false, true, c.flags.carry))), false))
  {
    hide BitOn, WithBit, Reg, SetReg, ReadData, WriteData;
  }

  lemma PairRuns(auth: Authority, x: Exec, p: Isa.Reg16)
    ensures
      var c := x.vm.core;
      var s := AddPair(Pair(c, Isa.HL), Pair(c, p), c.flags);
      && Execute(auth, x, Isa.Increment16(p), []) == Ok(Got(WithCore(x, SetPair(c, p, Wrap16(Pair(c, p) + 1))), false))
      && Execute(auth, x, Isa.Decrement16(p), []) == Ok(Got(WithCore(x, SetPair(c, p, Wrap16(Pair(c, p) - 1))), false))
      && Execute(auth, x, Isa.AddHl(p), []) == Ok(Got(WithCore(x, SetPair(c, Isa.HL, s.0).(flags := s.1)), false))
  {
    hide AddPair, Pair, SetPair;
  }

  lemma OffsetRuns(auth: Authority, x: Exec, v: Octet)
    ensures
      var c := x.vm.core;
      var s := SpOffset(c.sp, v);
      && Execute(auth, x, Isa.AddSpOffset, [v]) == Ok(Got(WithCore(x, c.(sp := s.0, flags := s.1)), false))
      && Execute(auth, x, Isa.LoadHlSpOffset, [v])
           == Ok(Got(WithCore(x, SetPair(c, Isa.HL, s.0).(flags := s.1)), false))
  {
    hide SpOffset, SetPair, ExecuteRotate, ExecuteBit, ExecuteStack, ExecuteCallReturn, ReadData, WriteData;
  }

  lemma AdjustRuns(auth: Authority, x: Exec)
    ensures
      var c := x.vm.core;
      var d := DecimalAdjust(c.regs.a, c.flags);
      Execute(auth, x, Isa.DecimalAdjustA, [])
      == Ok(Got(WithCore(x, c.(regs := c.regs.(a := d.value), flags := d.flags)), false))
  {
    hide DecimalAdjust;
  }

  lemma ControlRuns(auth: Authority, x: Exec)
    ensures
      var c := x.vm.core;
      var turned := c.(regs := c.regs.(a := 255 - c.regs.a), flags := Flags(c.flags.zero, true, true, c.flags.carry));
      Execute(auth, x, Isa.ComplementA, []) == Ok(Got(WithCore(x, turned), false))
    ensures
      var c := x.vm.core;
      Execute(auth, x, Isa.SetCarry, [])
      == Ok(Got(WithCore(x, c.(flags := Flags(c.flags.zero, false, false, true))), false))
    ensures
      var c := x.vm.core;
      Execute(auth, x, Isa.ComplementCarry, [])
      == Ok(Got(WithCore(x, c.(flags := Flags(c.flags.zero, false, false, !c.flags.carry))), false))
    ensures Execute(auth, x, Isa.Nop, []) == Ok(Got(x, false))
  {
    hide DecimalAdjust, ExecuteLoad, ExecuteAlu, ExecuteRotate, ExecuteBit, ExecuteStack, ExecuteCallReturn;
  }

  /** The sums at instruction level: A gets the exact result, CP only its flags, and nothing else moves. */
  lemma SumExecuted(auth: Authority, x: Exec, op: Isa.AluOp, source: Isa.Operand, imm: seq<Octet>)
    requires source != Isa.AtHL && (source == Isa.ImmediateByte ==> imm != [])
    requires op in {Isa.AddA, Isa.AddCarryA, Isa.SubA, Isa.SubCarryA, Isa.CompareA}
    ensures Execute(auth, x, Isa.Alu8(op, source), imm).Ok?
    ensures
      var c, n := x.vm.core, Execute(auth, x, Isa.Alu8(op, source), imm).value.exec.vm.core;
      var a, v := c.regs.a, Operand(c, source, imm);
      var carry := if op == Isa.AddCarryA || op == Isa.SubCarryA then AsCarry(c.flags.carry) else 0;
      var sum := if n.flags.subtract then a - v - carry else a + v + carry;
      && OnlyA(c, n) && n.regs.a == (if op == Isa.CompareA then a else sum % 256)
      && (n.flags.subtract <==> op != Isa.AddA && op != Isa.AddCarryA) && (n.flags.zero <==> sum % 256 == 0)
      && (n.flags.carry <==> sum < 0 || sum > 255)
      && (n.flags.halfCarry <==>
          if n.flags.subtract then a % 16 < v % 16 + carry else a % 16 + v % 16 + carry > 15)
  {
    hide ApplyAlu, Execute;
    var a, v := x.vm.core.regs.a, Operand(x.vm.core, source, imm);
    AluRuns(auth, x, op, source, imm);
    SumsExact(op, a, v, x.vm.core.flags);
    var r := ApplyAlu(op, a, v, x.vm.core.flags);
    var k := AsCarry(r.flags.carry);
    DivisionUnique(if r.flags.subtract then r.value - 256 * k else r.value + 256 * k, 256,
                   if r.flags.subtract then -k else k, r.value);
  }

  /** AND, XOR and OR at instruction level, bit by bit. */
  lemma LogicExecuted(auth: Authority, x: Exec, op: Isa.AluOp, source: Isa.Operand, imm: seq<Octet>, k: nat)
    requires source != Isa.AtHL && (source == Isa.ImmediateByte ==> imm != []) && k < 8
    requires op in {Isa.AndA, Isa.XorA, Isa.OrA}
    ensures Execute(auth, x, Isa.Alu8(op, source), imm).Ok?
    ensures
      var c, n := x.vm.core, Execute(auth, x, Isa.Alu8(op, source), imm).value.exec.vm.core;
      && OnlyA(c, n) && n.flags == Flags(n.regs.a == 0, false, op == Isa.AndA, false)
      && (BitOn(n.regs.a, k) <==> OnBits(op, BitOn(c.regs.a, k), BitOn(Operand(c, source, imm), k)))
  {
    hide ApplyAlu, BitOn, Execute;
    AluRuns(auth, x, op, source, imm);
    LogicExact(op, x.vm.core.regs.a, Operand(x.vm.core, source, imm), x.vm.core.flags, k);
  }

  /** SUB undoes ADD and ADD undoes SUB. */
  lemma SumsUndo(auth: Authority, x: Exec, r: Isa.Reg8, first: Isa.AluOp)
    requires r != Isa.A && (first == Isa.AddA || first == Isa.SubA)
    ensures
      var second := if first == Isa.AddA then Isa.SubA else Isa.AddA;
      var y := Execute(auth, x, Isa.Alu8(first, Isa.Register(r)), []);
      y.Ok? && var z := Execute(auth, y.value.exec, Isa.Alu8(second, Isa.Register(r)), []);
               z.Ok? && z.value.exec.vm.core.regs == x.vm.core.regs
  {
    hide ApplyAlu, Execute, Reg;
    var second := if first == Isa.AddA then Isa.SubA else Isa.AddA;
    SumExecuted(auth, x, first, Isa.Register(r), []);
    var y := Execute(auth, x, Isa.Alu8(first, Isa.Register(r)), []).value.exec;
    SumExecuted(auth, y, second, Isa.Register(r), []);
    OtherRegister(x.vm.core, y.vm.core, r);
    Unwrap(x.vm.core.regs.a, Reg(x.vm.core, r), first == Isa.AddA);
  }

  lemma OtherRegister(c: Core, n: Core, r: Isa.Reg8)
    requires OnlyA(c, n) && r != Isa.A
    ensures Reg(n, r) == Reg(c, r)
  {
  }

  lemma Unwrap(a: Octet, v: Octet, added: bool)
    ensures added ==> ((a + v + 0) % 256 - v - 0) % 256 == a
    ensures !added ==> ((a - v - 0) % 256 + v + 0) % 256 == a
  {
  }

  /** DAA after ADC on two pairs of decimal digits leaves the digits of their sum and its carry. */
  lemma DecimalExecuted(auth: Authority, x: Exec, r: Isa.Reg8)
    requires Decimal.Digits(x.vm.core.regs.a) && Decimal.Digits(Reg(x.vm.core, r))
    ensures
      var y := Execute(auth, x, Isa.Alu8(Isa.AddCarryA, Isa.Register(r)), []);
      y.Ok? && var z := Execute(auth, y.value.exec, Isa.DecimalAdjustA, []);
               z.Ok? && var n := z.value.exec.vm.core;
                        && Decimal.Digits(n.regs.a) && OnlyA(x.vm.core, n)
                        && Number(n.regs.a) + 100 * AsCarry(n.flags.carry)
                           == Number(x.vm.core.regs.a) + Number(Reg(x.vm.core, r)) + AsCarry(x.vm.core.flags.carry)
  {
    hide Add, DecimalAdjust, Decimal.Digits, Number, Execute, Reg;
    AluRuns(auth, x, Isa.AddCarryA, Isa.Register(r), []);
    AdjustRuns(auth, Execute(auth, x, Isa.Alu8(Isa.AddCarryA, Isa.Register(r)), []).value.exec);
    AdjustedSum(x.vm.core.regs.a, Reg(x.vm.core, r), x.vm.core.flags.carry);
  }

  /** CPL turns every bit, SCF sets the carry, CCF turns it; none of them touches Z. */
  lemma ComplementsExecuted(auth: Authority, x: Exec)
    ensures
      var c := x.vm.core;
      var p, s, t := Execute(auth, x, Isa.ComplementA, []), Execute(auth, x, Isa.SetCarry, []),
        Execute(auth, x, Isa.ComplementCarry, []);
      && p.Ok? && s.Ok? && t.Ok?
      && p.value.exec.vm.core.regs == c.regs.(a := 255 - c.regs.a)
      && p.value.exec.vm.core.flags == Flags(c.flags.zero, true, true, c.flags.carry)
      && s.value.exec.vm.core == c.(flags := Flags(c.flags.zero, false, false, true))
      && t.value.exec.vm.core == c.(flags := Flags(c.flags.zero, false, false, !c.flags.carry))
  {
    hide Execute;
    ControlRuns(auth, x);
  }

  /** INC and DEC of a register, and of a pair, are one step modulo their width; INC then DEC restores the register. */
  lemma StepsExecuted(auth: Authority, x: Exec, r: Isa.Reg8, p: Isa.Reg16)
    ensures
      var c := x.vm.core;
      var i, d := Execute(auth, x, Isa.Increment8(Isa.Register(r)), []),
        Execute(auth, x, Isa.Decrement8(Isa.Register(r)), []);
      && i.Ok? && d.Ok?
      && i.value.exec.vm.core == SetReg(c, r, (Reg(c, r) + 1) % 256).(flags := i.value.exec.vm.core.flags)
      && d.value.exec.vm.core == SetReg(c, r, (Reg(c, r) - 1) % 256).(flags := d.value.exec.vm.core.flags)
      && i.value.exec.vm.core.flags.carry == c.flags.carry && d.value.exec.vm.core.flags.carry == c.flags.carry
    ensures
      var c := x.vm.core;
      var i, d := Execute(auth, x, Isa.Increment16(p), []), Execute(auth, x, Isa.Decrement16(p), []);
      && i.Ok? && d.Ok?
      && i.value.exec.vm.core == SetPair(c, p, (Pair(c, p) + 1) % 65536)
      && d.value.exec.vm.core == SetPair(c, p, (Pair(c, p) - 1) % 65536)
  {
    hide SetReg, SetPair, Reg, Pair, Execute;
    StepRuns(auth, x, r, true);
    StepRuns(auth, x, r, false);
    PairRuns(auth, x, p);
    SetFlagsLast(x.vm.core, r, (Reg(x.vm.core, r) + 1) % 256);
    SetFlagsLast(x.vm.core, r, (Reg(x.vm.core, r) - 1) % 256);
  }

  /** A rotation of a register by a CB instruction, and of A by its short form, which clears Z. */
  lemma RotateExecuted(auth: Authority, x: Exec, cb: Isa.CbOp, r: Isa.Reg8)
    requires !cb.TestBit? && !cb.ResetBit? && !cb.SetBit?
    ensures
      var c := x.vm.core;
      var y, z := Execute(auth, x, Isa.Cb(cb, Isa.Register(r)), []), Execute(auth, x, Isa.RotateAccumulator(cb), []);
      && y.Ok? && z.Ok?
      && var n, m := y.value.exec.vm.core, z.value.exec.vm.core;
         && n == SetReg(c, r, Reg(n, r)).(flags := n.flags) && OnlyA(c, m)
         && Turned(cb, Reg(c, r), AsCarry(c.flags.carry), Reg(n, r), AsCarry(n.flags.carry))
         && Turned(cb, c.regs.a, AsCarry(c.flags.carry), m.regs.a, AsCarry(m.flags.carry))
         && n.flags == Flags(Reg(n, r) == 0, false, false, n.flags.carry)
         && m.flags == Flags(false, false, false, m.flags.carry)
  {
    hide Rotate, Turned, Execute, Reg, SetReg;
    var c := x.vm.core;
    Rotates(cb, Reg(c, r), c.flags.carry, true);
    Rotates(cb, c.regs.a, c.flags.carry, false);
    CbRuns(auth, x, cb, r);
    ShortRotateRuns(auth, x, cb);
    RotateExact(cb, Reg(c, r), c.flags.carry, true);
    RotateExact(cb, c.regs.a, c.flags.carry, false);
    Holding(c, r, Rotate(cb, Reg(c, r), c.flags.carry, true).value);
  }

  /** A core with a byte put in a register and new flags holds them. */
  lemma Holding(c: Core, r: Isa.Reg8, b: ByteResult)
    requires 0 <= b.value < 256
    ensures Reg(SetReg(c, r, b.value).(flags := b.flags), r) == b.value
  {
  }

  lemma SameReg(c: Core, r: Isa.Reg8)
    ensures forall f: Flags :: Reg(c.(flags := f), r) == Reg(c, r)
  {
  }

  lemma SetFlagsLast(c: Core, r: Isa.Reg8, v: Octet)
    ensures SetReg(c, r, v).flags == c.flags
  {
  }

  /** BIT sees what SET and RES left: Z is set after RES and clear after SET of the same bit, and of another bit it is
      what it was; the carry is kept. */
  lemma BitsExecuted(auth: Authority, x: Exec, r: Isa.Reg8, b: nat, on: bool, k: nat)
    requires b < 8 && k < 8
    ensures
      var c := x.vm.core;
      var y := Execute(auth, x, Isa.Cb(if on then Isa.SetBit(b) else Isa.ResetBit(b), Isa.Register(r)), []);
      y.Ok? && var z := Execute(auth, y.value.exec, Isa.Cb(Isa.TestBit(k), Isa.Register(r)), []);
               z.Ok? && var n := z.value.exec.vm.core;
                        && (n.flags.zero <==> if k == b then !on else !BitOn(Reg(c, r), k))
                        && n.flags.carry == c.flags.carry && n.flags.halfCarry && !n.flags.subtract
                        && n == SetReg(c, r, Reg(n, r)).(flags := n.flags) && y.value.exec.vm.core.flags == c.flags
  {
    hide BitOn, WithBit, Execute, Reg, SetReg;
    var c := x.vm.core;
    BitRuns(auth, x, b, r, on);
    var y := Execute(auth, x, Isa.Cb(if on then Isa.SetBit(b) else Isa.ResetBit(b), Isa.Register(r)), []).value.exec;
    TestRuns(auth, y, k, r);
    RegisterWritten(c, r, WithBit(Reg(c, r), b, on), r);
    SetFlagsLast(c, r, WithBit(Reg(c, r), b, on));
    SameReg(y.vm.core, r);
    BitWritten(Reg(c, r), b, on, k);
  }

  /** ADD HL,rr: the sum modulo 2^16 with the carries of two byte additions, Z kept. */
  lemma PairSumExecuted(auth: Authority, x: Exec, p: Isa.Reg16)
    ensures
      var c, y := x.vm.core, Execute(auth, x, Isa.AddHl(p), []);
      y.Ok? && var n := y.value.exec.vm.core;
               && Pair(n, Isa.HL) + 65536 * AsCarry(n.flags.carry) == Pair(c, Isa.HL) + Pair(c, p)
               && n.flags.zero == c.flags.zero && !n.flags.subtract
               && n == SetPair(c, Isa.HL, Pair(n, Isa.HL)).(flags := n.flags)
  {
    hide AddPair, SetPair, Pair, Execute, Add;
    var c := x.vm.core;
    var r := AddPair(Pair(c, Isa.HL), Pair(c, p), c.flags);
    PairRuns(auth, x, p);
    PairSumExact(Pair(c, Isa.HL), Pair(c, p), c.flags);
    PairKept(c, r.0, r.1);
  }

  lemma PairKept(c: Core, v: Address, f: Flags)
    ensures Pair(SetPair(c, Isa.HL, v).(flags := f), Isa.HL) == v && SetPair(c, Isa.HL, v).sp == c.sp
  {
  }

  /** ADD SP,e and LD HL,SP+e put SP plus the signed offset in SP and in HL, with the same flags. */
  lemma SpOffsetExecuted(auth: Authority, x: Exec, v: Octet)
    ensures
      var c := x.vm.core;
      var y, z := Execute(auth, x, Isa.AddSpOffset, [v]), Execute(auth, x, Isa.LoadHlSpOffset, [v]);
      && y.Ok? && z.Ok?
      && var n, m := y.value.exec.vm.core, z.value.exec.vm.core;
         && (n.sp - c.sp - Signed(v)) % 65536 == 0 && Pair(m, Isa.HL) == n.sp && m.sp == c.sp && m.flags == n.flags
         && n == c.(sp := n.sp, flags := n.flags) && !n.flags.zero && !n.flags.subtract
  {
    hide SpOffset, Signed, Execute, Add, SetPair, Pair;
    OffsetRuns(auth, x, v);
    SpOffsetExact(x.vm.core.sp, v);
    PairKept(x.vm.core, SpOffset(x.vm.core.sp, v).0, SpOffset(x.vm.core.sp, v).1);
  }
}
