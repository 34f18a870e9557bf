/** Honest timer columns of long HALT rows, and exactly when the closed-form relation accepts them. */
module LongTimerEncoder {

  import opened Wrappers
  import opened Field
  import opened Timer
  import opened HaltSkips
  import opened TimerRow
  import opened Encoding
  import opened TimerEncoder
  import opened LongTimerRow

  /** `append_timer_row` and `append_long_timer_state` for `c` M-cycles, with the T-cycles left over after the
      request. */
  function LongRowOf(t: TimerState, interrupt: bool, c: nat, gap: int): LongRow {
    var u := Ticks(t, 4 * c);
    LongRow(
      EncodeSetup(t), BitsOf(t.rawDiv, 16), BitsOf(u.rawDiv, 16), BitsOf((t.rawDiv + 4 * c) / 65536, 5),
      BitsOf(t.counter, 8),
      BitsOf(u.counter, 8), t.reloadPhase, u.reloadPhase, AsBit(t.edgeLatch), AsBit(u.edgeLatch), AsBit(interrupt),
      AsBit(interrupt || Requested(t, 4 * c)), BitsOf(gap, 2), c)
  }

  /** Lengths whose divider quotient fits its five bits. */
  predicate QuotientFits(t: TimerState, c: nat) { t.rawDiv + 4 * c < 32 * 65536 }

  lemma LongRowParts(t: TimerState, interrupt: bool, c: nat, gap: int)
    requires t.Valid() && QuotientFits(t, c) && 0 <= gap < 4
    ensures
      var r, u := LongRowOf(t, interrupt, c, gap), Ticks(t, 4 * c);
      && r.Shape() && r.Boolean() && r.Before() == t && r.After() == u && r.cycles == c
      && Packed(r.setup.modulo) == t.modulo && Packed(r.setup.control) == t.control && Packed(r.div) == t.rawDiv
      && Packed(r.counter) == t.counter && Packed(r.counterAfter) == u.counter && Packed(r.gap) == gap
      && Packed(r.divAfter) == u.rawDiv && Packed(r.quotient) == (t.rawDiv + 4 * c) / 65536
  {
    hide Packed, BitsOf, Pow2, Ticks, Requested;
    PowerValues();
    var u := Ticks(t, 4 * c);
    FieldRoom(c);
    BitsFit(t.control, 3, 8);
    BitsFit(t.modulo, 8, 256);
    BitsFit(t.rawDiv, 16, 65536);
    BitsFit(u.rawDiv, 16, 65536);
    BitsFit(t.counter, 8, 256);
    BitsFit(u.counter, 8, 256);
    BitsFit(gap, 2, 4);
    BitsFit((t.rawDiv + 4 * c) / 65536, 5, 32);
    TwoBits(interrupt, interrupt || Requested(t, 4 * c));
  }

  lemma FieldRoom(c: nat)
    requires c < 0x8_0000
    ensures Felt(c)
  {
  }

  lemma DividerAccepted(t: TimerState, interrupt: bool, c: nat, gap: int)
    requires t.Valid() && QuotientFits(t, c) && 0 <= gap < 4
    ensures LongRowOf(t, interrupt, c, gap).Shape() && LongTimerRow.DividerIdentity(LongRowOf(t, interrupt, c, gap))
  {
    hide Packed, BitsOf, Ticks, Requested, LongRowOf;
    LongRowParts(t, interrupt, c, gap);
    DividerCounts(t, 4 * c);
    ZeroHolds(0);
  }

  lemma SkipLength(t: TimerState, k: int, c: int)
    requires t.Valid() && t.TCyclesUntilInterrupt() == Some(k) && c == (k + 3) / 4
    ensures c > 0 && 0 <= 4 * c - k < 4 && QuotientFits(t, c)
  {
    TicksBound(t);
  }

  lemma DetectorOfRow(r: LongRow)
    requires r.Shape() && r.Boolean()
    ensures Detector(r.setup, r.div) == AsBit(r.Before().DetectorInput())
  {
    hide Packed, Detector, TimerState.DetectorInput;
    var s := Columns(r.div, r.counter, [0, 0, 0], 0, 0);
    DetectorColumn(r.setup, s);
    DetectorOf(Decode(r.setup, s), r.Before());
  }

  lemma LatchHolds(latch: bool, zero: int, one: int, gap: seq<int>)
    requires Bit(zero) && Bit(one) && |gap| == 2 && Bits(gap)
    requires latch == (zero == 1 && one == 0 && gap[0] + 2 * gap[1] == 3)
    ensures Zero(AsBit(latch) - zero * (1 - one) * (gap[0] * gap[1]))
  {
    ZeroHolds(0);
    assert Bit(gap[0]) && Bit(gap[1]);
    assert gap[0] * gap[1] == AsBit(gap[0] == 1 && gap[1] == 1);
  }

  /**
    * For every settled running timer, the row of the native timer skip meets the boolean, divider and closed-form
    * identities.
    */
  lemma UntilTimerRowComplete(t: TimerState, interrupt: bool, k: int, c: nat)
    requires t.Valid() && t.TCyclesUntilInterrupt() == Some(k) && c == (k + 3) / 4
    ensures
      var r := LongRowOf(t, interrupt, c, 4 * c - k);
      && r.Shape() && r.BooleanIdentitiesHold() && r.Before() == t && r.cycles == c
      && UntilTimerIdentities(r) && LongTimerRow.DividerIdentity(r)
  {
    hide Packed, BitsOf, Ticks, Requested, LongRowOf, TimerState.DetectorInput, TimerState.Period, PeriodColumn,
         RemainderColumn, Detector, LongTimerRow.DividerIdentity;
    SkipLength(t, k, c);
    var gap := 4 * c - k;
    var r, u := LongRowOf(t, interrupt, c, gap), Ticks(t, 4 * c);
    LongRowParts(t, interrupt, c, gap);
    LongBits(r);
    Ranges(r);
    DividerAccepted(t, interrupt, c, gap);
    StateAfterRequest(t, gap);
    InterruptDistanceExact(t, 4 * c);
    PeriodMeans(r.setup, r.div, t);
    PeriodMeans(r.setup, r.div, u.(rawDiv := t.rawDiv));
    DetectorOfRow(r);
    ScalarColumns(t, interrupt, c, gap);
    LatchHolds(u.edgeLatch, r.setup.control[0], r.setup.control[1], r.gap);
    ZeroHolds(0);
  }

  lemma ScalarColumns(t: TimerState, interrupt: bool, c: nat, gap: int)
    ensures LongRowOf(t, interrupt, c, gap).requestAfter == AsBit(interrupt || Requested(t, 4 * c))
    ensures LongRowOf(t, interrupt, c, gap).requestBefore == AsBit(interrupt)
    ensures LongRowOf(t, interrupt, c, gap).setup == EncodeSetup(t)
    ensures LongRowOf(t, interrupt, c, gap).latch == AsBit(t.edgeLatch)
    ensures LongRowOf(t, interrupt, c, gap).latchAfter == AsBit(Ticks(t, 4 * c).edgeLatch)
    ensures LongRowOf(t, interrupt, c, gap).phase == t.reloadPhase
    ensures LongRowOf(t, interrupt, c, gap).phaseAfter == Ticks(t, 4 * c).reloadPhase
  {
    hide BitsOf, Ticks, Requested;
  }

  /** The row of any other long skip meets the boolean and divider identities, and the rest exactly for a timer at
      rest. */
  lemma StoppedRowAcceptedExactly(t: TimerState, interrupt: bool, c: nat)
    requires t.Valid() && QuotientFits(t, c)
    ensures
      var r := LongRowOf(t, interrupt, c, 0);
      && r.Shape() && r.BooleanIdentitiesHold() && r.Before() == t && r.cycles == c && LongTimerRow.DividerIdentity(r)
      && (StoppedIdentities(r) <==> TimerQuiet(t))
  {
    hide Packed, BitsOf, Ticks, Requested, LongRowOf, TimerState.DetectorInput, LongTimerRow.DividerIdentity;
    var r := LongRowOf(t, interrupt, c, 0);
    LongRowParts(t, interrupt, c, 0);
    LongBits(r);
    DividerAccepted(t, interrupt, c, 0);
    ScalarColumns(t, interrupt, c, 0);
    ControlBit(t);
    if TimerQuiet(t) {
      StoppedTimer(t, 4 * c);
      ZeroHolds(0);
    } else if StoppedIdentities(r) {
      ZeroIsZero(r.setup.control[2]);
      SameColumn(r.phase, 0);
      SameColumn(r.latch, 0);
    }
  }

  lemma ControlBit(t: TimerState)
    requires t.Valid()
    ensures EncodeSetup(t).Shape() && EncodeSetup(t).control[2] == AsBit(t.Enabled())
  {
    hide BitsOf;
    BitsFit(t.control, 3, 8);
    Packed3(BitsOf(t.control, 3));
  }
}
