/** Byte addition and subtraction with flags, decimal adjustment, and multi-byte decimal arithmetic. */
module Decimal {

  import opened Modulus

  datatype Flags = Flags(zero: bool, subtract: bool, halfCarry: bool, carry: bool)
  datatype ByteResult = ByteResult(value: int, flags: Flags)

  predicate Byte(x: int) { 0 <= x < 256 }
  function AsCarry(b: bool): int { if b then 1 else 0 }
  function WrapByte(x: int): int { x % 256 }

  /** Addition with carry in: two overflowing byte additions, half carry from the low digits. */
  function Add(left: int, right: int, carryIn: bool): ByteResult {
    var partial := WrapByte(left + right);
    var value := WrapByte(partial + AsCarry(carryIn));
    var half := left % 16 + right % 16 + AsCarry(carryIn) > 15;
    ByteResult(value, Flags(value == 0, false, half, left + right > 255 || partial + AsCarry(carryIn) > 255))
  }

  function Subtract(left: int, right: int, carryIn: bool): ByteResult {
    var partial := WrapByte(left - right);
    var value := WrapByte(partial - AsCarry(carryIn));
    var half := left % 16 < right % 16 + AsCarry(carryIn);
    ByteResult(value, Flags(value == 0, true, half, left < right || partial < AsCarry(carryIn)))
  }

  function DecimalAdjust(accumulator: int, before: Flags): ByteResult {
    var carry := before.carry || (!before.subtract && accumulator > 0x99);
    var low := before.halfCarry || (!before.subtract && accumulator % 16 > 9);
    var correction := (if carry then 0x60 else 0) + (if low then 0x06 else 0);
    var value := WrapByte(if before.subtract then accumulator - correction else accumulator + correction);
    ByteResult(value, Flags(value == 0, before.subtract, false, carry))
  }

  // ----- one byte -----

  /** Two decimal digits in one byte. */
  predicate Digits(b: int) { Byte(b) && b % 16 <= 9 && b / 16 <= 9 }

  function Number(b: int): int { 10 * (b / 16) + b % 16 }

  lemma WrapAdd(x: int, r: int)
    requires 0 <= x < 512 && r == (if x > 255 then x - 256 else x)
    ensures WrapByte(x) == r
  {
    DivisionUnique(x, 256, if x > 255 then 1 else 0, r);
  }

  lemma WrapSub(x: int, r: int)
    requires -256 <= x < 256 && r == (if x < 0 then x + 256 else x)
    ensures WrapByte(x) == r
  {
    DivisionUnique(x, 256, if x < 0 then -1 else 0, r);
  }

  /** Binary addition of a byte and its carries. */
  lemma AddExact(left: int, right: int, c: bool)
    requires Byte(left) && Byte(right)
    ensures
      var r := Add(left, right, c);
      && Byte(r.value) && r.value + 256 * AsCarry(r.flags.carry) == left + right + AsCarry(c)
      && (r.flags.halfCarry <==> left % 16 + right % 16 + AsCarry(c) > 15) && !r.flags.subtract
      && (r.flags.zero <==> (left + right + AsCarry(c)) % 256 == 0)
  {
    hide WrapByte;
    var partial := if left + right > 255 then left + right - 256 else left + right;
    WrapAdd(left + right, partial);
    var value := if partial + AsCarry(c) > 255 then partial + AsCarry(c) - 256 else partial + AsCarry(c);
    WrapAdd(partial + AsCarry(c), value);
    DivisionUnique(left + right + AsCarry(c), 256, AsCarry(Add(left, right, c).flags.carry), value);
  }

  lemma SubtractExact(left: int, right: int, c: bool)
    requires Byte(left) && Byte(right)
    ensures
      var r := Subtract(left, right, c);
      && Byte(r.value) && r.value - 256 * AsCarry(r.flags.carry) == left - right - AsCarry(c)
      && (r.flags.halfCarry <==> left % 16 < right % 16 + AsCarry(c)) && r.flags.subtract
      && (r.flags.carry <==> left < right + AsCarry(c))
      && (r.flags.zero <==> (left - right - AsCarry(c)) % 256 == 0)
  {
    hide WrapByte;
    var partial := if left - right < 0 then left - right + 256 else left - right;
    WrapSub(left - right, partial);
    var value := if partial - AsCarry(c) < 0 then partial - AsCarry(c) + 256 else partial - AsCarry(c);
    WrapSub(partial - AsCarry(c), value);
    DivisionUnique(left - right - AsCarry(c), 256, -AsCarry(Subtract(left, right, c).flags.carry), value);
  }

  /** Splits a byte into its digits. */
  lemma Split(b: int)
    requires Byte(b)
    ensures b == 16 * (b / 16) + b % 16 && 0 <= b % 16 < 16 && 0 <= b / 16 < 16
  {
  }

  /** A byte assembled from two digits. */
  lemma Join(high: int, low: int)
    requires 0 <= high <= 9 && 0 <= low <= 9
    ensures Digits(16 * high + low) && Number(16 * high + low) == 10 * high + low
  {
    DivisionUnique(16 * high + low, 16, high, low);
  }

  /** The adjusted sum of digit pairs, from their summed high and low digits. */
  lemma AdjustDigits(h: int, low: int, value: int, before: Flags)
    requires 0 <= h <= 18 && 0 <= low <= 19 && 0 <= value < 256 && value + 256 * AsCarry(before.carry) == 16 * h + low
    requires !before.subtract && (before.halfCarry <==> low > 15)
    ensures
      var r := DecimalAdjust(value, before);
      var high := h + AsCarry(low > 9);
      && (r.flags.carry <==> high > 9)
      && r.value == 16 * (high - 10 * AsCarry(high > 9)) + (low - 10 * AsCarry(low > 9))
  {
    hide WrapByte;
    LowDigit(h, low, value, AsCarry(before.carry));
    var lowCarry := AsCarry(low > 9);
    var high := h + lowCarry;
    WrapAdd(value + 0x60 * AsCarry(high > 9) + 6 * lowCarry,
            16 * (high - 10 * AsCarry(high > 9)) + (low - 10 * lowCarry));
  }

  /** Decimal adjustment reports a zero byte, keeps the subtract flag and clears half carry. */
  predicate AdjustedFlags(value: int, before: Flags, after: Flags) {
    (after.zero <==> value == 0) && (after.subtract <==> before.subtract) && !after.halfCarry
  }

  lemma AdjustFlags(accumulator: int, before: Flags)
    ensures AdjustedFlags(DecimalAdjust(accumulator, before).value, before, DecimalAdjust(accumulator, before).flags)
  {
    hide WrapByte;
  }

  lemma SumDigits(left: int, right: int, c: bool)
    requires Digits(left) && Digits(right)
    ensures
      var s := Add(left, right, c);
      var r := DecimalAdjust(s.value, s.flags);
      && Digits(r.value) && !s.flags.subtract
      && Number(r.value) + 100 * AsCarry(r.flags.carry) == Number(left) + Number(right) + AsCarry(c)
  {
    hide Add, DecimalAdjust;
    AddExact(left, right, c);
    Split(left);
    Split(right);
    var h, low := left / 16 + right / 16, left % 16 + right % 16 + AsCarry(c);
    var high := h + AsCarry(low > 9);
    AdjustDigits(h, low, Add(left, right, c).value, Add(left, right, c).flags);
    Join(high - 10 * AsCarry(high > 9), low - 10 * AsCarry(low > 9));
  }

  /** Add-with-carry then adjust gives the two digits of the decimal sum and its carry, with the zero flag for 00. */
  lemma AdjustedSum(left: int, right: int, c: bool)
    requires Digits(left) && Digits(right)
    ensures
      var s := Add(left, right, c);
      var r := DecimalAdjust(s.value, s.flags);
      && Digits(r.value) && Number(r.value) + 100 * AsCarry(r.flags.carry) == Number(left) + Number(right) + AsCarry(c)
      && !r.flags.subtract && !r.flags.halfCarry
      && (r.flags.zero <==> (Number(left) + Number(right) + AsCarry(c)) % 100 == 0)
  {
    hide Add, DecimalAdjust, Digits, Number;
    var s := Add(left, right, c);
    SumDigits(left, right, c);
    AdjustFlags(s.value, s.flags);
    var r := DecimalAdjust(s.value, s.flags);
    ZeroDigits(r.value, AsCarry(r.flags.carry), Number(left) + Number(right) + AsCarry(c));
  }

  /** Two digits are zero exactly when their number, the rest modulo 100, is. */
  lemma ZeroDigits(b: int, carry: int, sum: int)
    requires Digits(b) && Number(b) + 100 * carry == sum
    ensures b == 0 <==> sum % 100 == 0
  {
    DivisionUnique(sum, 100, carry, Number(b));
  }

  /** Which corrections the binary sum of two digit pairs calls for. */
  lemma LowDigit(h: int, low: int, value: int, carry: int)
    requires 0 <= h <= 18 && 0 <= low <= 19 && 0 <= value < 256 && 0 <= carry <= 1
    requires value + 256 * carry == 16 * h + low
    ensures low > 15 || value % 16 > 9 <==> low > 9
    ensures carry == 1 || value > 0x99 <==> h + AsCarry(low > 9) > 9
  {
    var over := AsCarry(low > 15);
    DivisionUnique(value, 16, h + over - 16 * carry, low - 16 * over);
  }

  lemma DifferenceDigits(left: int, right: int, c: bool)
    requires Digits(left) && Digits(right)
    ensures
      var s := Subtract(left, right, c);
      var r := DecimalAdjust(s.value, s.flags);
      && Digits(r.value) && s.flags.subtract
      && Number(r.value) - 100 * AsCarry(r.flags.carry) == Number(left) - Number(right) - AsCarry(c)
  {
    hide Subtract, WrapByte;
    SubtractExact(left, right, c);
    Split(left);
    Split(right);
    var s := Subtract(left, right, c);
    var low := left % 16 - right % 16 - AsCarry(c);
    var lowBorrow := AsCarry(low < 0);
    var high := left / 16 - right / 16 - lowBorrow;
    assert s.flags.carry <==> high < 0;
    Join(high + 10 * AsCarry(high < 0), low + 10 * lowBorrow);
    WrapSub(s.value - 0x60 * AsCarry(high < 0) - 6 * lowBorrow,
            16 * (high + 10 * AsCarry(high < 0)) + (low + 10 * lowBorrow));
  }

  /** Subtract-with-carry then adjust gives the digits of the decimal difference and its borrow; zero for 00. */
  lemma AdjustedDifference(left: int, right: int, c: bool)
    requires Digits(left) && Digits(right)
    ensures
      var s := Subtract(left, right, c);
      var r := DecimalAdjust(s.value, s.flags);
      && Digits(r.value)
      && Number(r.value) - 100 * AsCarry(r.flags.carry) == Number(left) - Number(right) - AsCarry(c)
      && r.flags.subtract && !r.flags.halfCarry
      && (r.flags.zero <==> (Number(left) - Number(right) - AsCarry(c)) % 100 == 0)
  {
    hide Subtract, DecimalAdjust, Digits, Number;
    var s := Subtract(left, right, c);
    DifferenceDigits(left, right, c);
    AdjustFlags(s.value, s.flags);
    var r := DecimalAdjust(s.value, s.flags);
    ZeroDigits(r.value, -AsCarry(r.flags.carry), Number(left) - Number(right) - AsCarry(c));
  }

  // ----- numbers of any length, least significant byte first -----

  predicate AllDigits(s: seq<int>) { forall i :: 0 <= i < |s| ==> Digits(s[i]) }

  function NumberOf(s: seq<int>): int {
    if s == [] then 0 else Number(s[0]) + 100 * NumberOf(s[1..])
  }

  function Hundreds(n: nat): int { if n == 0 then 1 else 100 * Hundreds(n - 1) }

  datatype Chain = Chain(bytes: seq<int>, carry: bool)

  /** The accumulator loop of a program: ADC then DAA on each byte. */
  function AddChain(a: seq<int>, b: seq<int>, c: bool): Chain
    requires |a| == |b|
    decreases |a|
  {
    if a == [] then Chain([], c)
    else
      var s := Add(a[0], b[0], c);
      var r := DecimalAdjust(s.value, s.flags);
      var rest := AddChain(a[1..], b[1..], r.flags.carry);
      Chain([r.value] + rest.bytes, rest.carry)
  }

  /** SBC then DAA on each byte. */
  function SubtractChain(a: seq<int>, b: seq<int>, c: bool): Chain
    requires |a| == |b|
    decreases |a|
  {
    if a == [] then Chain([], c)
    else
      var s := Subtract(a[0], b[0], c);
      var r := DecimalAdjust(s.value, s.flags);
      var rest := SubtractChain(a[1..], b[1..], r.flags.carry);
      Chain([r.value] + rest.bytes, rest.carry)
  }

  /** Decimal addition at any length: valid digits, and sum with carry out. */
  lemma {:induction false} DecimalSum(a: seq<int>, b: seq<int>, c: bool)
    requires |a| == |b| && AllDigits(a) && AllDigits(b)
    ensures
      var r := AddChain(a, b, c);
      && |r.bytes| == |a| && AllDigits(r.bytes)
      && NumberOf(r.bytes) + Hundreds(|a|) * AsCarry(r.carry) == NumberOf(a) + NumberOf(b) + AsCarry(c)
    decreases |a|
  {
    hide Add, DecimalAdjust, Digits, Number;
    if a != [] {
      AdjustedSum(a[0], b[0], c);
      var s := Add(a[0], b[0], c);
      var r := DecimalAdjust(s.value, s.flags);
      DecimalSum(a[1..], b[1..], r.flags.carry);
      Prepend(r.value, AddChain(a[1..], b[1..], r.flags.carry).bytes);
      assert Hundreds(|a|) == 100 * Hundreds(|a| - 1);
    }
  }

  lemma Prepend(d: int, rest: seq<int>)
    ensures NumberOf([d] + rest) == Number(d) + 100 * NumberOf(rest)
    ensures Digits(d) && AllDigits(rest) ==> AllDigits([d] + rest)
  {
    assert ([d] + rest)[1..] == rest;
  }

  /** Decimal subtraction at any length: valid digits, and difference with borrow out. */
  lemma {:induction false} DecimalDifference(a: seq<int>, b: seq<int>, c: bool)
    requires |a| == |b| && AllDigits(a) && AllDigits(b)
    ensures
      var r := SubtractChain(a, b, c);
      && |r.bytes| == |a| && AllDigits(r.bytes)
      && NumberOf(r.bytes) - Hundreds(|a|) * AsCarry(r.carry) == NumberOf(a) - NumberOf(b) - AsCarry(c)
    decreases |a|
  {
    hide Subtract, DecimalAdjust, Digits, Number;
    if a != [] {
      AdjustedDifference(a[0], b[0], c);
      var s := Subtract(a[0], b[0], c);
      var r := DecimalAdjust(s.value, s.flags);
      DecimalDifference(a[1..], b[1..], r.flags.carry);
      Prepend(r.value, SubtractChain(a[1..], b[1..], r.flags.carry).bytes);
      assert Hundreds(|a|) == 100 * Hundreds(|a| - 1);
    }
  }

  // ----- the digits are determined -----

  lemma {:induction false} NumberRange(s: seq<int>)
    requires AllDigits(s)
    ensures 0 <= NumberOf(s) < Hundreds(|s|)
  {
    if s != [] { NumberRange(s[1..]); }
  }

  lemma {:induction false} NumberInjective(s: seq<int>, t: seq<int>)
    requires AllDigits(s) && AllDigits(t) && |s| == |t| && NumberOf(s) == NumberOf(t)
    ensures s == t
  {
    if s != [] {
      DivisionUnique(NumberOf(s), 100, NumberOf(s[1..]), Number(s[0]));
      DivisionUnique(NumberOf(t), 100, NumberOf(t[1..]), Number(t[0]));
      DivisionUnique(Number(s[0]), 10, s[0] / 16, s[0] % 16);
      DivisionUnique(Number(t[0]), 10, t[0] / 16, t[0] % 16);
      NumberInjective(s[1..], t[1..]);
      assert s == [s[0]] + s[1..] && t == [t[0]] + t[1..];
    }
  }

  /** Subtraction undoes addition digit for digit, and borrows exactly when the addition carried. */
  lemma SubtractUndoesAdd(a: seq<int>, b: seq<int>)
    requires |a| == |b| && AllDigits(a) && AllDigits(b)
    ensures
      var sum := AddChain(a, b, false);
      |sum.bytes| == |b| && SubtractChain(sum.bytes, b, false) == Chain(a, sum.carry)
  {
    var sum := AddChain(a, b, false);
    DecimalSum(a, b, false);
    DecimalDifference(sum.bytes, b, false);
    var back := SubtractChain(sum.bytes, b, false);
    NumberRange(a);
    NumberRange(back.bytes);
    NumberInjectiveUpToCarry(Hundreds(|a|), NumberOf(back.bytes), NumberOf(a), AsCarry(back.carry), AsCarry(sum.carry));
    NumberInjective(back.bytes, a);
  }

  lemma NumberInjectiveUpToCarry(h: int, x: int, y: int, p: int, q: int)
    requires 0 <= x < h && 0 <= y < h && 0 <= p <= 1 && 0 <= q <= 1 && x - h * p == y - h * q
    ensures x == y && p == q
  {
  }
}
