/** A device-quiet packed row: PPU position, interval events and serial countdown follow the T-cycle clock. */
module QuietRow {

  import opened Modulus
  import opened Field
  import opened Gadgets
  import opened Devices
  import opened HaltSkips
  import opened PpuRow

  datatype Quiet = Quiet(
    before: Side, after: Side, cycles: int, wrap: int, longVBlank: int,
    statBoundary: int, statGap: seq<int>, statEvent: int, vblankEvent: int, vblankGap: seq<int>,
    beforeIf: seq<int>, afterIf: seq<int>, sources: seq<int>,
    beforeZero: seq<int>, afterZero: seq<int>, completed: int, completionGap: seq<int>)
  {
    predicate Shape() {
      && before.Shape() && after.Shape() && Felt(cycles) && |statGap| == 9 && |vblankGap| == 17
      && |beforeIf| == 5 && |afterIf| == 5 && |sources| == 5
      && |beforeZero| == 12 && |afterZero| == 12 && |completionGap| == 5
    }

    /** What the boolean identities of the row leave. */
    predicate Boolean() {
      && before.Boolean() && after.Boolean() && Bit(wrap) && Bit(longVBlank)
      && Bit(statBoundary) && Bits(statGap) && Bit(statEvent) && Bit(vblankEvent) && Bits(vblankGap)
      && Bits(beforeIf) && Bits(afterIf) && Bits(sources)
      && Bits(beforeZero) && Bits(afterZero) && Bit(completed) && Bits(completionGap)
    }

    predicate BooleanIdentitiesHold() {
      && before.BooleanIdentitiesHold() && after.BooleanIdentitiesHold()
      && BooleanIdentities([wrap, longVBlank, statBoundary, statEvent, vblankEvent, completed])
      && BooleanIdentities(statGap) && BooleanIdentities(vblankGap)
      && BooleanIdentities(beforeIf) && BooleanIdentities(afterIf) && BooleanIdentities(sources)
      && BooleanIdentities(beforeZero) && BooleanIdentities(afterZero) && BooleanIdentities(completionGap)
    }

    /** IF bit `k` once a dispatched interrupt is acknowledged. */
    function Base(k: nat): int
      requires Shape() && k < 5
    {
      beforeIf[k] * (1 - sources[k])
    }

    function Enabled(): int
      requires Shape()
    {
      before.low[39]
    }

    predicate BoundaryIdentities() {
      && Shape()
      && before.PositionRanged(1) && after.PositionRanged(1)
      && StateIdentities(1, before) && StateIdentities(1, after)
    }
  }

  function PositionOf(s: Side): int { s.line * 456 + s.dot }

  predicate RegisterIdentities(quiet: int, r: Quiet)
    requires r.Shape()
  {
    && (forall b :: 16 <= b < 64 ==> Zero(quiet * (r.before.low[b] - r.after.low[b])))
    && (forall b :: 0 <= b < 48 ==> Zero(quiet * (r.before.high[b] - r.after.high[b])))
  }

  predicate PositionIdentities(quiet: int, r: Quiet)
    requires r.Shape()
  {
    var disabled := 1 - r.Enabled();
    && Zero(quiet * disabled * r.before.line) && Zero(quiet * disabled * r.before.dot)
    && Zero(quiet * disabled * r.after.line) && Zero(quiet * disabled * r.after.dot)
    && Zero(quiet * r.Enabled() * (PositionOf(r.after) - PositionOf(r.before) - 4 * r.cycles + 70224 * r.wrap))
    && Zero(quiet * disabled * r.wrap)
  }

  function StatDistance(s: Side): int {
    80 * s.below80 + 252 * ((1 - s.below80) * s.below252) + 456 * (1 - s.below252) - s.dot
  }

  predicate StatIdentities(quiet: int, r: Quiet)
    requires r.Shape()
  {
    && ComparisonIdentities(quiet * r.Enabled() * (1 - r.longVBlank), 4 * r.cycles, StatDistance(r.before),
                            r.statBoundary, Packed(r.statGap))
    && Zero(r.statEvent - r.statBoundary * (1 - r.before.signal) * r.after.signal)
  }

  predicate VBlankIdentities(quiet: int, r: Quiet)
    requires r.Shape()
  {
    && ComparisonIdentities(quiet * r.Enabled(), PositionOf(r.before) + 4 * r.cycles, 65664 + 70224 * r.before.vblank,
                            r.vblankEvent, Packed(r.vblankGap))
    && Zero(r.longVBlank * (r.vblankEvent - 1)) && Zero(r.longVBlank * Packed(r.vblankGap))
  }

  /** What selects a VBlank skip: the LCD on and no STAT source. */
  predicate LongVBlankIdentities(r: Quiet)
    requires r.Shape()
  {
    Zero(r.longVBlank * (r.Enabled() - 1)) && Zero(r.longVBlank * Packed(r.before.low[40..48]))
  }

  predicate InterruptIdentities(quiet: int, r: Quiet)
    requires r.Shape()
  {
    && Zero(quiet * (r.afterIf[0] - r.Base(0) - (1 - r.Base(0)) * r.vblankEvent))
    && Zero(quiet * (r.afterIf[1] - r.Base(1) - (1 - r.Base(1)) * r.statEvent))
    && Zero(quiet * (r.afterIf[4] - r.Base(4)))
  }

  /** The boolean identities of the row say exactly that its columns are bits. */
  lemma QuietBits(r: Quiet)
    ensures r.BooleanIdentitiesHold() <==> r.Boolean()
  {
    hide Side.Boolean, Side.BooleanIdentitiesHold, BooleanIdentities, Bits;
    SideBits(r.before);
    SideBits(r.after);
    BooleanColumns([r.wrap, r.longVBlank, r.statBoundary, r.statEvent, r.vblankEvent, r.completed]);
    SixBits(r.wrap, r.longVBlank, r.statBoundary, r.statEvent, r.vblankEvent, r.completed);
    BooleanColumns(r.statGap);
    BooleanColumns(r.vblankGap);
    BooleanColumns(r.beforeIf);
    BooleanColumns(r.afterIf);
    BooleanColumns(r.sources);
    BooleanColumns(r.beforeZero);
    BooleanColumns(r.afterZero);
    BooleanColumns(r.completionGap);
  }

  lemma SixBits(a: int, b: int, c: int, d: int, e: int, f: int)
    ensures Bits([a, b, c, d, e, f]) <==> Bit(a) && Bit(b) && Bit(c) && Bit(d) && Bit(e) && Bit(f)
  {
    var s := [a, b, c, d, e, f];
    assert s[0] == a && s[1] == b && s[2] == c && s[3] == d && s[4] == e && s[5] == f;
  }

  // ----- registers and position -----

  lemma EqColumn(quiet: int, x: int, y: int)
    requires quiet == 1 && Bit(x) && Bit(y) && Zero(quiet * (x - y))
    ensures x == y
  {
    SameColumn(x, y);
  }

  lemma RegistersKept(r: Quiet)
    requires r.Shape() && r.before.Boolean() && r.after.Boolean() && RegisterIdentities(1, r)
    ensures r.after.low[16..] == r.before.low[16..] && r.after.high[..48] == r.before.high[..48]
    ensures r.after.Decode() == r.before.Decode().(line := r.after.line, dot := r.after.dot)
  {
    hide Packed, Zero;
    forall b | 16 <= b < 64 ensures r.before.low[b] == r.after.low[b] {
      EqColumn(1, r.before.low[b], r.after.low[b]);
    }
    forall b | 0 <= b < 48 ensures r.before.high[b] == r.after.high[b] {
      EqColumn(1, r.before.high[b], r.after.high[b]);
    }
    assert r.after.low[32..40] == r.before.low[32..40] && r.after.low[40..48] == r.before.low[40..48];
    assert r.after.high[40..48] == r.before.high[40..48];
  }

  /** A valid position determines line and dot. */
  lemma PositionInjective(p: Ppu, q: Ppu)
    requires 0 <= p.dot <= 455 && 0 <= q.dot <= 455 && p.Position() == q.Position()
    ensures p.line == q.line && p.dot == q.dot
  {
    DivisionUnique(p.Position(), 456, p.line, p.dot);
    DivisionUnique(q.Position(), 456, q.line, q.dot);
  }

  lemma EqPosition(gate: int, after: int, before: int, cycles: int, wrap: int)
    requires 0 <= after < 70224 && 0 <= before < 70224 && Bit(wrap) && gate == 1
    requires 0 <= cycles < 0x1_0000_0000_0000_0000
    requires Zero(gate * (after - before - 4 * cycles + 70224 * wrap))
    ensures after == before + 4 * cycles - 70224 * wrap
  {
    ZeroIsZero(after - before - 4 * cycles + 70224 * wrap);
  }

  /** One wrap bit suffices: the position after the row is the clocked position, and zero while the LCD is off. */
  lemma PositionForced(r: Quiet)
    requires r.Shape() && r.BooleanIdentitiesHold() && r.BoundaryIdentities() && RegisterIdentities(1, r)
    requires PositionIdentities(1, r)
    requires r.before.Decode().Valid() && r.cycles < 0x1_0000_0000_0000_0000
    ensures r.after.Decode() == PpuTicks(r.before.Decode(), 4 * r.cycles)
    ensures r.after.Decode().Valid()
  {
    hide Quiet.BooleanIdentitiesHold, Packed, Zero, PpuTicks, StateIdentities, Bits, RegisterIdentities,
         Side.PositionRanged, PositionIdentities;
    QuietBits(r);
    RegistersKept(r);
    RegisterBits(r.before);
    PositionSound(r.before);
    PositionSound(r.after);
    var p, q := r.before.Decode(), r.after.Decode();
    if p.Enabled() {
      PositionEquation(r);
      PositionAdvances(p, 4 * r.cycles);
      FrameRemainder(p.Position() + 4 * r.cycles);
      PositionInjective(q, PpuTicks(p, 4 * r.cycles));
    } else {
      DisabledPosition(r);
      DisabledPpu(p, 4 * r.cycles);
    }
  }

  lemma PositionEquation(r: Quiet)
    requires r.Shape() && r.Boolean() && PositionIdentities(1, r) && r.Enabled() == 1
    requires 0 <= r.before.line <= 153 && 0 <= r.before.dot <= 455 && 0 <= r.after.line <= 153
    requires 0 <= r.after.dot <= 455
    requires r.cycles < 0x1_0000_0000_0000_0000
    ensures PositionOf(r.after) == PositionOf(r.before) + 4 * r.cycles - 70224 * r.wrap
  {
    hide Zero, Packed;
    EqPosition(1 * r.Enabled(), PositionOf(r.after), PositionOf(r.before), r.cycles, r.wrap);
  }

  lemma DisabledPosition(r: Quiet)
    requires r.Shape() && r.Boolean() && PositionIdentities(1, r) && r.Enabled() == 0
    requires 0 <= r.after.line <= 153 && 0 <= r.after.dot <= 455
    ensures r.after.line == 0 && r.after.dot == 0
  {
    SameColumn(r.after.line, 0);
    SameColumn(r.after.dot, 0);
  }

  // ----- interval events -----

  lemma GapRange(gap: seq<int>)
    requires Bits(gap) && |gap| <= 17
    ensures 0 <= Packed(gap) < 0x1_0000_0000
  {
    PackedRange(gap);
    Pow2Below(|gap|, 17);
  }

  /** The VBlank event column is set exactly when line 144 is entered within the row. */
  lemma VBlankForced(r: Quiet)
    requires r.Shape() && r.BooleanIdentitiesHold() && r.BoundaryIdentities() && VBlankIdentities(1, r)
    requires r.before.Decode().Valid() && r.cycles < 0x1_0000_0000_0000_0000
    ensures r.vblankEvent == AsBit(VBlankRaised(r.before.Decode(), 4 * r.cycles))
    ensures r.vblankEvent == 1 ==> Packed(r.vblankGap) == 4 * r.cycles - ToVBlank(r.before.Decode())
  {
    hide Quiet.BooleanIdentitiesHold, Packed, Zero, VBlankRaised, StateIdentities, Bits, Side.PositionRanged,
         ComparisonIdentities, Side.Decode, Ppu.Signal;
    QuietBits(r);
    RegisterBits(r.before);
    PositionSound(r.before);
    StateSound(r.before);
    GapRange(r.vblankGap);
    var p := r.before.Decode();
    SamePosition(r.before);
    if p.Enabled() {
      EntersAtPosition(p);
      VBlankExact(p, 4 * r.cycles);
      ComparisonSound(PositionOf(r.before) + 4 * r.cycles, 65664 + 70224 * r.before.vblank, r.vblankEvent,
                      Packed(r.vblankGap));
    } else {
      DisabledPpu(p, 4 * r.cycles);
      ComparisonInactive(PositionOf(r.before) + 4 * r.cycles, 65664 + 70224 * r.before.vblank, r.vblankEvent,
                         Packed(r.vblankGap));
    }
  }

  lemma SamePosition(s: Side)
    requires s.Shape()
    ensures s.Decode().Position() == PositionOf(s) && s.Decode().line == s.line && s.Decode().dot == s.dot
  {
  }

  lemma StatDistanceMeans(s: Side)
    requires s.Shape() && s.Boolean() && s.Decode().Enabled() && 0 <= s.dot <= 455
    requires s.below80 == AsBit(s.dot < 80) && s.below252 == AsBit(s.dot < 252)
    ensures StatDistance(s) == BoundaryDot(s.Decode()) - s.dot
  {
    hide Packed;
  }

  lemma EqStatEvent(event: int, boundary: int, before: int, after: int)
    requires Bit(event) && Bit(boundary) && Bit(before) && Bit(after) && Zero(event - boundary * (1 - before) * after)
    ensures event == AsBit(boundary == 1 && before == 0 && after == 1)
  {
    EqThree(event, boundary, 1 - before, after);
  }

  /** Rows the STAT interval describes: any length with the LCD off, a VBlank skip, or a short row. */
  predicate Measured(r: Quiet)
    requires r.Shape()
  {
    && r.cycles < 0x1_0000_0000_0000_0000
    && (r.longVBlank == 1 ==> LongVBlankIdentities(r))
    && (r.longVBlank == 0 && r.before.Decode().Enabled() ==> r.cycles <= 20)
  }

  /** The STAT event column is set exactly when the composite line rises within the row. */
  lemma StatForced(r: Quiet)
    requires r.Shape() && r.BooleanIdentitiesHold() && r.BoundaryIdentities() && StatIdentities(1, r)
    requires RegisterIdentities(1, r) && PositionIdentities(1, r)
    requires r.before.Decode().Valid() && Measured(r)
    ensures r.statEvent == AsBit(StatRaised(r.before.Decode(), 4 * r.cycles))
    ensures r.statEvent == 1 ==> Packed(r.statGap) == 4 * r.cycles - (BoundaryDot(r.before.Decode()) - r.before.dot)
  {
    hide Quiet.BooleanIdentitiesHold, Packed, Zero, StatRaised, PpuTicks, StateIdentities, Bits, Side.PositionRanged,
         ComparisonIdentities, RegisterIdentities, PositionIdentities, Side.Decode, Ppu.Signal, StatDistance,
         LongVBlankIdentities;
    QuietBits(r);
    RegisterBits(r.before);
    PositionSound(r.before);
    PositionSound(r.after);
    StateSound(r.before);
    StateSound(r.after);
    PositionForced(r);
    GapRange(r.statGap);
    SamePosition(r.before);
    EqStatEvent(r.statEvent, r.statBoundary, r.before.signal, r.after.signal);
    var p := r.before.Decode();
    if r.longVBlank == 1 {
      LongVBlankStarts(r);
      NoStat(p, 4 * r.cycles);
      ComparisonInactive(4 * r.cycles, StatDistance(r.before), r.statBoundary, Packed(r.statGap));
    } else if p.Enabled() {
      StatDistanceMeans(r.before);
      StatExact(p, 4 * r.cycles);
      ComparisonSound(4 * r.cycles, StatDistance(r.before), r.statBoundary, Packed(r.statGap));
    } else {
      DisabledPpu(p, 4 * r.cycles);
      ComparisonInactive(4 * r.cycles, StatDistance(r.before), r.statBoundary, Packed(r.statGap));
    }
  }

  lemma EqRaise(after: int, base: int, event: int)
    requires Bit(after) && Bit(base) && Bit(event) && Zero(1 * (after - base - (1 - base) * event))
    ensures after == AsBit(base == 1 || event == 1)
  {
    ZeroIsZero(after - base - (1 - base) * event);
  }

  lemma BaseBit(r: Quiet, k: nat)
    requires r.Shape() && r.Boolean() && k < 5
    ensures r.Base(k) == AsBit(r.beforeIf[k] == 1 && r.sources[k] == 0)
  {
  }

  /** IF bits 0, 1 and 4 after a quiet row, short or long; a VBlank skip sets the request it skips to. */
  lemma PpuInterruptsForced(r: Quiet)
    requires r.Shape() && r.BooleanIdentitiesHold() && r.BoundaryIdentities() && StatIdentities(1, r)
    requires VBlankIdentities(1, r)
    requires RegisterIdentities(1, r) && PositionIdentities(1, r) && InterruptIdentities(1, r)
    requires r.before.Decode().Valid() && Measured(r)
    ensures
      var p := r.before.Decode();
      && r.afterIf[0] == AsBit(r.Base(0) == 1 || VBlankRaised(p, 4 * r.cycles))
      && r.afterIf[1] == AsBit(r.Base(1) == 1 || StatRaised(p, 4 * r.cycles))
      && r.afterIf[4] == r.Base(4)
      && (r.longVBlank == 1 ==> r.afterIf[0] == 1)
      && (!p.Enabled() ==> r.afterIf[0] == r.Base(0) && r.afterIf[1] == r.Base(1))
  {
    hide Quiet.BooleanIdentitiesHold, Packed, Zero, StatRaised, VBlankRaised, StateIdentities, Side.Decode,
         ComparisonIdentities, RegisterIdentities, PositionIdentities, VBlankIdentities, StatIdentities,
         Quiet.BoundaryIdentities, Quiet.Base, LongVBlankIdentities;
    QuietBits(r);
    VBlankForced(r);
    StatForced(r);
    if r.longVBlank == 1 { VBlankSelected(r); }
    if !r.before.Decode().Enabled() { DisabledPpu(r.before.Decode(), 4 * r.cycles); }
    BaseBit(r, 0);
    BaseBit(r, 1);
    BaseBit(r, 4);
    EqRaise(r.afterIf[0], r.Base(0), r.vblankEvent);
    EqRaise(r.afterIf[1], r.Base(1), r.statEvent);
    EqColumn(1, r.afterIf[4], r.Base(4));
  }

  lemma EqSkip(selected: int, x: int, y: int)
    requires selected == 1 && 0 <= x < 0x1_0000_0000 && 0 <= y < 0x1_0000_0000 && Zero(selected * (x - y))
    ensures x == y
  {
    SameColumn(x, y);
  }

  lemma EqNothing(selected: int, x: int)
    requires selected == 1 && 0 <= x < 0x1_0000_0000 && Zero(selected * x)
    ensures x == 0
  {
    ZeroIsZero(x);
  }

  lemma VBlankSelected(r: Quiet)
    requires r.Shape() && r.Boolean() && VBlankIdentities(1, r) && r.longVBlank == 1
    ensures r.vblankEvent == 1 && Packed(r.vblankGap) == 0
  {
    hide Packed, ComparisonIdentities, Zero;
    GapRange(r.vblankGap);
    EqSkip(r.longVBlank, r.vblankEvent, 1);
    EqNothing(r.longVBlank, Packed(r.vblankGap));
  }

  /** A VBlank-skip row has the LCD on and STAT off, and ends exactly at the entry of line 144. */
  lemma LongVBlankForced(r: Quiet)
    requires r.Shape() && r.BooleanIdentitiesHold() && r.BoundaryIdentities() && r.longVBlank == 1
    requires RegisterIdentities(1, r) && PositionIdentities(1, r) && VBlankIdentities(1, r) && LongVBlankIdentities(r)
    requires r.before.Decode().Valid() && r.cycles < 0x1_0000_0000_0000_0000
    ensures
      var p := r.before.Decode();
      && p.Enabled() && p.statControl == 0 && 4 * r.cycles == ToVBlank(p)
      && r.after.Decode() == PpuTicks(p, 4 * r.cycles) && r.after.line == 144 && r.after.dot == 0
  {
    hide Quiet.BooleanIdentitiesHold, Packed, StateIdentities, Bits, Side.Decode, ComparisonIdentities,
         Quiet.BoundaryIdentities, VBlankRaised, PpuTicks, RegisterIdentities, PositionIdentities, Zero, Quiet.Enabled;
    QuietBits(r);
    RegisterBits(r.before);
    LongVBlankStarts(r);
    VBlankForced(r);
    VBlankSelected(r);
    PositionForced(r);
    SamePosition(r.before);
    SamePosition(r.after);
    AtVBlank(r.before.Decode(), 4 * r.cycles);
  }

  lemma LongVBlankStarts(r: Quiet)
    requires r.Shape() && r.Boolean() && r.longVBlank == 1 && LongVBlankIdentities(r)
    ensures r.before.low[39] == 1 && r.before.Decode().statControl == 0
  {
    hide Packed, Zero;
    EqSkip(r.longVBlank, r.before.low[39], 1);
    RegisterBits(r.before);
    EqNothing(r.longVBlank, Packed(r.before.low[40..48]));
  }

  /** The position at the end of the distance to VBlank. */
  lemma AtVBlank(p: Ppu, n: nat)
    requires p.Valid() && p.Enabled() && n == ToVBlank(p)
    ensures PpuTicks(p, n).line == 144 && PpuTicks(p, n).dot == 0
  {
    hide PpuTicks;
    PositionAdvances(p, n);
    EntersAtPosition(p);
    if p.Position() < VBlankTCycle { FrameRemainder(p.Position() + n); } else { WrapFrame(p.Position() + n); }
    DivisionUnique(PpuTicks(p, n).Position(), 456, PpuTicks(p, n).line, PpuTicks(p, n).dot);
  }

  lemma WrapFrame(s: int)
    requires s == FrameTCycles + VBlankTCycle
    ensures s % FrameTCycles == VBlankTCycle
  {
  }
}
