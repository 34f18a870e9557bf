/** The quiet-row serial relation: countdown, zero-product chain, completion gap, registers and IF bit 3. */
module SerialRow {

  import opened Modulus
  import opened Field
  import opened TimerRow
  import opened Gadgets
  import opened Devices
  import opened PpuRow
  import opened QuietRow

  /** Thirteen countdown bits of the high register pack. */
  function Countdown(s: Side): int
    requires s.Shape()
  {
    Packed(s.high[48..61])
  }

  function SerialOf(s: Side): Serial
    requires s.Shape()
  {
    Serial(Packed(s.low[0..8]), Packed(s.low[8..16]), Packed(s.high[48..64]))
  }

  /** Bits 13..15 are clear, and bit 12 excludes all lower bits: the countdown is at most 4096. */
  predicate CountdownRange(owner: int, s: Side)
    requires s.Shape()
  {
    && (forall b :: 61 <= b < 64 ==> Zero(owner * s.high[b]))
    && (forall b :: 48 <= b < 60 ==> Zero(owner * s.high[60] * s.high[b]))
  }

  function ClearBits(s: Side): (r: seq<int>)
    requires s.Shape()
    ensures |r| == 12
  {
    seq(12, i requires 0 <= i < 12 => 1 - s.high[49 + i])
  }

  /** The zero-product chain over the thirteen bits. */
  predicate ZeroProducts(s: Side, products: seq<int>)
    requires s.Shape()
  {
    ChainIdentities(1 - s.high[48], products, ClearBits(s))
  }

  predicate CountdownIdentities(quiet: int, r: Quiet)
    requires r.Shape()
  {
    var active := 1 - r.beforeZero[11];
    var ticks := 4 * r.cycles;
    && Zero(quiet * (r.completed - active * r.afterZero[11]))
    && Zero(quiet
            * (Countdown(r.after) - Countdown(r.before) + active * (1 - r.completed) * ticks
               + r.completed * Countdown(r.before)))
    && (forall b :: 0 <= b < 5 ==> Zero(quiet * (1 - r.completed) * r.completionGap[b]))
    && Zero(quiet * r.completed * (Packed(r.completionGap) - ticks + Countdown(r.before)))
    && Zero(quiet * active * (r.before.low[8] - 1)) && Zero(quiet * active * (r.before.low[15] - 1))
  }

  predicate SerialRegisterIdentities(quiet: int, r: Quiet)
    requires r.Shape()
  {
    && (forall b :: 0 <= b < 8 ==>
        Zero(quiet * (r.after.low[b] - r.before.low[b] - r.completed * (1 - r.before.low[b]))))
    && (forall b :: 8 <= b < 15 ==> Zero(quiet * (r.after.low[b] - r.before.low[b])))
    && Zero(quiet * (r.after.low[15] - r.before.low[15] * (1 - r.completed)))
    && Zero(quiet * (r.afterIf[3] - r.Base(3) - (1 - r.Base(3)) * r.completed))
  }

  predicate SerialIdentities(quiet: int, r: Quiet)
    requires r.Shape()
  {
    && CountdownRange(1, r.before) && CountdownRange(1, r.after)
    && ZeroProducts(r.before, r.beforeZero) && ZeroProducts(r.after, r.afterZero)
    && CountdownIdentities(quiet, r) && SerialRegisterIdentities(quiet, r)
  }

  /** All identities of a quiet row apart from its boolean ones. */
  predicate QuietIdentities(q: Quiet)
    requires q.Shape()
  {
    && q.BoundaryIdentities() && RegisterIdentities(1, q) && PositionIdentities(1, q)
    && StatIdentities(1, q) && VBlankIdentities(1, q) && InterruptIdentities(1, q) && SerialIdentities(1, q)
  }

  // ----- countdown -----

  lemma EqAnd(x: int, y: int)
    requires Bit(x) && Bit(y) && Zero(1 * x * y)
    ensures x == 0 || y == 0
  {
    EqBits(x, y);
  }

  lemma CountdownBounded(s: Side)
    requires s.Shape() && s.Boolean() && CountdownRange(1, s)
    ensures 0 <= Countdown(s) <= 4096 && Packed(s.high[48..64]) == Countdown(s)
  {
    hide Packed, Zero, Pow2;
    forall b | 61 <= b < 64 ensures s.high[b] == 0 { SameColumn(s.high[b], 0); }
    forall b | 48 <= b < 60 ensures s.high[60] == 0 || s.high[b] == 0 { EqAnd(s.high[60], s.high[b]); }
    var wide, narrow := s.high[48..64], s.high[48..61];
    assert wide[..13] == narrow;
    TopClear(wide);
    TopExcludes(narrow);
  }

  /** Three clear top bits leave the thirteen-bit value. */
  lemma TopClear(b: seq<int>)
    requires |b| == 16 && Bits(b) && b[13] == 0 && b[14] == 0 && b[15] == 0
    ensures Packed(b) == Packed(b[..13])
  {
    PackedSplit(b, 13);
    hide Packed, Pow2;
    ZeroPacked(b[13..]);
    SameProduct(Packed(b[13..]), 0, Pow2(13));
  }

  /** A thirteenth bit that excludes the others bounds the value by 4096. */
  lemma TopExcludes(b: seq<int>)
    requires |b| == 13 && Bits(b) && forall i :: 0 <= i < 12 ==> b[12] == 0 || b[i] == 0
    ensures 0 <= Packed(b) <= 4096
  {
    PackedSplit(b, 12);
    PackedRange(b[..12]);
    hide Packed, Pow2;
    PowerValues();
    assert b[12..] == [b[12]];
    PackedOne(b[12]);
    SameProduct(Pow2(12), 4096, b[12]);
    if b[12] == 1 { ZeroPacked(b[..12]); }
  }

  lemma SameProduct(p: int, n: int, x: int)
    requires p == n
    ensures p * x == n * x && x * p == x * n
  {
  }

  lemma PackedOne(b: int)
    ensures Packed([b]) == b
  {
    assert [b][1..] == [];
  }

  /** The last product is one exactly when the countdown is zero. */
  lemma ZeroProductsSound(s: Side, products: seq<int>)
    requires s.Shape() && s.Boolean() && |products| == 12 && Bits(products) && ZeroProducts(s, products)
    ensures products[11] == AsBit(Countdown(s) == 0)
  {
    hide Packed, ChainIdentities;
    var clear := ClearBits(s);
    var bits := s.high[48..61];
    ZeroPacked(bits);
    Gadgets.ChainSound(1 - s.high[48], products, clear, 12);
    ClearMeans(bits, clear);
  }

  lemma ClearMeans(bits: seq<int>, clear: seq<int>)
    requires |bits| == 13 && |clear| == 12 && forall i :: 0 <= i < 12 ==> clear[i] == 1 - bits[i + 1]
    ensures (forall i :: 0 <= i < 13 ==> bits[i] == 0) <==> bits[0] == 0 && forall i :: 0 <= i < 12 ==> clear[i] == 1
  {
    if bits[0] == 0 && forall i :: 0 <= i < 12 ==> clear[i] == 1 {
      forall i | 0 <= i < 13 ensures bits[i] == 0 {
        if i > 0 { assert clear[i - 1] == 1; }
      }
    }
  }

  lemma EqCompleted(completed: int, active: int, zero: int)
    requires Bit(completed) && Bit(active) && Bit(zero) && Zero(1 * (completed - active * zero))
    ensures completed == AsBit(active == 1 && zero == 1)
  {
    ZeroIsZero(completed - active * zero);
  }

  lemma EqCountdown(after: int, before: int, active: int, completed: int, ticks: int)
    requires 0 <= after <= 4096 && 0 <= before <= 4096 && Bit(active) && Bit(completed)
    requires 0 <= ticks < 0x1_0000_0000_0000_0000_0000
    requires Zero(1 * (after - before + active * (1 - completed) * ticks + completed * before))
    ensures after == if completed == 1 then 0 else if active == 1 then before - ticks else before
  {
    var gate := active * (1 - completed);
    assert gate == if active == 1 && completed == 0 then 1 else 0;
    if completed == 1 { ZeroIsZero(after); }
    else if active == 1 { ZeroIsZero(after - before + ticks); }
    else { ZeroIsZero(after - before); }
  }

  lemma EqGap(gap: int, completed: int, ticks: int, before: int)
    requires 0 <= gap < 32 && 0 <= before <= 4096 && 0 <= ticks < 0x1_0000_0000_0000_0000_0000 && Bit(completed)
    requires Zero(1 * completed * (gap - ticks + before))
    ensures completed == 1 ==> gap == ticks - before
  {
    if completed == 1 { ZeroIsZero(gap - ticks + before); }
  }

  /** The countdown columns perform a saturating subtraction of the elapsed ticks. */
  lemma CountdownForced(r: Quiet)
    requires r.Shape() && r.Boolean() && SerialIdentities(1, r) && r.cycles < 0x1_0000_0000_0000_0000
    ensures
      var before, ticks := Countdown(r.before), 4 * r.cycles;
      && Countdown(r.after) == (if ticks >= before then 0 else before - ticks)
      && r.completed == AsBit(before != 0 && ticks >= before)
      && (r.completed == 1 ==> Packed(r.completionGap) == ticks - before)
      && (before != 0 ==> r.before.low[8] == 1 && r.before.low[15] == 1)
  {
    hide Packed, Zero, ChainIdentities, CountdownRange, ZeroProducts, SerialRegisterIdentities, Bits;
    CountdownBounded(r.before);
    CountdownBounded(r.after);
    ZeroProductsSound(r.before, r.beforeZero);
    ZeroProductsSound(r.after, r.afterZero);
    GapBelow32(r.completionGap);
    hide Countdown;
    var active := 1 - r.beforeZero[11];
    EqCompleted(r.completed, active, r.afterZero[11]);
    EqCountdown(Countdown(r.after), Countdown(r.before), active, r.completed, 4 * r.cycles);
    EqGap(Packed(r.completionGap), r.completed, 4 * r.cycles, Countdown(r.before));
    ControlBitsForced(r, active);
  }

  lemma ControlBitsForced(r: Quiet, active: int)
    requires r.Shape() && r.Boolean() && CountdownIdentities(1, r) && active == 1 - r.beforeZero[11]
    ensures active == 1 ==> r.before.low[8] == 1 && r.before.low[15] == 1
  {
    hide Packed, Countdown;
    if active == 1 {
      ZeroIsZero(r.before.low[8] - 1);
      ZeroIsZero(r.before.low[15] - 1);
    }
  }

  lemma GapBelow32(gap: seq<int>)
    requires |gap| == 5 && Bits(gap)
    ensures 0 <= Packed(gap) < 32
  {
    PackedRange(gap);
    PowerValues();
  }

  // ----- registers -----

  lemma EqSet(after: int, before: int, completed: int)
    requires Bit(after) && Bit(before) && Bit(completed) && Zero(1 * (after - before - completed * (1 - before)))
    ensures after == if completed == 1 then 1 else before
  {
    ZeroIsZero(after - before - completed * (1 - before));
  }

  lemma EqClear(after: int, before: int, completed: int)
    requires Bit(after) && Bit(before) && Bit(completed) && Zero(1 * (after - before * (1 - completed)))
    ensures after == if completed == 1 then 0 else before
  {
    ZeroIsZero(after - before * (1 - completed));
  }

  lemma DataForced(r: Quiet)
    requires r.Shape() && r.Boolean() && SerialRegisterIdentities(1, r)
    ensures Packed(r.after.low[0..8]) == if r.completed == 1 then 0xff else Packed(r.before.low[0..8])
  {
    hide Packed, Zero;
    forall b | 0 <= b < 8 ensures r.after.low[b] == if r.completed == 1 then 1 else r.before.low[b] {
      EqSet(r.after.low[b], r.before.low[b], r.completed);
    }
    Packed8(r.after.low[0..8]);
    if r.completed == 0 { assert r.after.low[0..8] == r.before.low[0..8]; }
  }

  lemma ControlForced(r: Quiet)
    requires r.Shape() && r.Boolean() && SerialRegisterIdentities(1, r)
    ensures Packed(r.after.low[8..16]) ==
            Packed(r.before.low[8..16]) - (if r.completed == 1 then 128 * r.before.low[15] else 0)
  {
    hide Packed, Zero;
    forall b | 8 <= b < 15 ensures r.after.low[b] == r.before.low[b] {
      SameColumn(r.after.low[b], r.before.low[b]);
    }
    EqClear(r.after.low[15], r.before.low[15], r.completed);
    Packed8(r.after.low[8..16]);
    Packed8(r.before.low[8..16]);
  }

  lemma SerialInterruptForced(r: Quiet)
    requires r.Shape() && r.Boolean() && SerialRegisterIdentities(1, r)
    ensures r.afterIf[3] == AsBit(r.Base(3) == 1 || r.completed == 1)
  {
    hide Zero, Quiet.Base;
    BaseBit(r, 3);
    EqRaise(r.afterIf[3], r.Base(3), r.completed);
  }

  lemma ControlTopBit(s: Side)
    requires s.Shape() && s.Boolean()
    ensures Packed(s.low[8..16]) % 128 == Packed(s.low[8..16]) - 128 * s.low[15]
    ensures 0 <= Packed(s.low[8..16]) < 256 && 0 <= Packed(s.low[0..8]) < 256
    ensures Packed(s.low[8..16]) >= 128 <==> s.low[15] == 1
    ensures Packed(s.low[8..16]) % 2 == s.low[8]
  {
    hide Packed;
    var c := s.low[8..16];
    Packed8(c);
    PackedRange(c);
    PackedRange(s.low[0..8]);
    PowerValues();
    assert Bit(c[0]) && Bit(c[1]) && Bit(c[2]) && Bit(c[3]) && Bit(c[4]) && Bit(c[5]) && Bit(c[6]) && Bit(c[7]);
    DivisionUnique(Packed(c), 2, c[1] + 2 * c[2] + 4 * c[3] + 8 * c[4] + 16 * c[5] + 32 * c[6] + 64 * c[7], c[0]);
  }

  /** Any satisfying row advances the serial port by exactly the elapsed T-cycles, with its interrupt. */
  lemma SerialForced(r: Quiet)
    requires r.Shape() && r.BooleanIdentitiesHold() && SerialIdentities(1, r) && r.cycles < 0x1_0000_0000_0000_0000
    ensures SerialOf(r.before).Valid()
    ensures SerialOf(r.after) == SerialOf(r.before).Advance(4 * r.cycles)
    ensures r.afterIf[3] == AsBit(r.Base(3) == 1 || SerialOf(r.before).Completes(4 * r.cycles))
  {
    hide Quiet.BooleanIdentitiesHold, Packed, Zero, CountdownRange, ZeroProducts, CountdownIdentities,
         SerialRegisterIdentities, Quiet.Base;
    QuietBits(r);
    CountdownBounded(r.before);
    CountdownBounded(r.after);
    CountdownForced(r);
    DataForced(r);
    ControlForced(r);
    SerialInterruptForced(r);
    ControlTopBit(r.before);
  }

  // ----- long rows -----

  /** What a serial skip adds: the transfer completes with no T-cycle to spare, the LCD off. */
  predicate LongSerialIdentities(selected: int, r: Quiet)
    requires r.Shape()
  {
    Zero(selected * (r.completed - 1)) && Zero(selected * Packed(r.completionGap)) && Zero(selected * r.Enabled())
  }

  /** A serial-skip row has the LCD off and takes exactly the M-cycles left of its transfer, which it completes. */
  lemma LongSerialForced(r: Quiet)
    requires r.Shape() && r.BooleanIdentitiesHold() && SerialIdentities(1, r) && LongSerialIdentities(1, r)
    requires r.cycles < 0x1_0000_0000_0000_0000
    ensures
      var s := SerialOf(r.before);
      && s.remaining > 0 && 4 * r.cycles == s.remaining && r.cycles == s.remaining / 4 && !r.before.Decode().Enabled()
      && SerialOf(r.after) == Serial(0xff, s.control % 128, 0) && r.afterIf[3] == 1
  {
    hide Quiet.BooleanIdentitiesHold, Packed, Zero, CountdownRange, ZeroProducts, CountdownIdentities,
         SerialRegisterIdentities, Quiet.Base, Bits;
    QuietBits(r);
    CountdownBounded(r.before);
    CountdownForced(r);
    SerialForced(r);
    RegisterBits(r.before);
    GapBelow32(r.completionGap);
    EqSkip(1, r.completed, 1);
    EqNothing(1, Packed(r.completionGap));
    EqNothing(1, r.before.low[39]);
  }

  /** What a VBlank or timer skip adds: no transfer runs. */
  predicate NoTransferIdentities(selected: int, r: Quiet)
    requires r.Shape()
  {
    Zero(selected * Countdown(r.before)) && Zero(selected * r.before.low[15])
  }

  lemma NoTransferForced(r: Quiet)
    requires r.Shape() && r.BooleanIdentitiesHold() && CountdownRange(1, r.before) && NoTransferIdentities(1, r)
    ensures SerialOf(r.before).remaining == 0 && SerialOf(r.before).control < 128
  {
    hide Quiet.BooleanIdentitiesHold, Packed, Zero, CountdownRange, Countdown;
    QuietBits(r);
    CountdownBounded(r.before);
    ControlTopBit(r.before);
    EqNothing(1, Countdown(r.before));
    EqNothing(1, r.before.low[15]);
  }
}
