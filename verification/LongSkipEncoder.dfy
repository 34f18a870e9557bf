/** Honest long rows: the encoder's row for every native long skip, and exactly when the relations accept it. */
module LongSkipEncoder {

  import opened Wrappers
  import opened Field
  import opened Gadgets
  import opened Timer
  import opened Devices
  import opened HaltSkips
  import opened Bus
  import opened Encoding
  import opened PpuRow
  import opened QuietRow
  import opened SerialRow
  import opened LongTimerRow
  import opened RowEncoder
  import opened TimerEncoder
  import opened LongTimerEncoder
  import opened LongSkipRow
  import DmaEncoder
  import DmaRow
  import MachineEncoder
  import MachineRow

  // ----- the native skip -----

  predicate LongMode(mode: MachineEncoder.Mode) { mode.ToVBlankLine? || mode.ToSerial? || mode.ToTimer? }

  /** A machine that takes the long skip `mode` for `c` M-cycles. */
  predicate Skipping(m: Machine, mode: MachineEncoder.Mode, c: nat) {
    && m.cpu.Valid() && m.device.Valid() && LongMode(mode) && MachineEncoder.Takes(m, mode)
    && LongSkip(m.device) == Some(c)
  }

  lemma SkipLengths(m: Machine, mode: MachineEncoder.Mode, c: nat)
    requires Skipping(m, mode, c)
    ensures MachineEncoder.Length(m, mode) == c && !m.device.Pending() && DmaQuiet(m.device.dma)
    ensures mode.ToVBlankLine? ==> UntilVBlank(m.device) == Some(c)
    ensures mode.ToSerial? ==> UntilSerial(m.device) == Some(c)
    ensures mode.ToTimer? ==> UntilTimer(m.device) == Some(c)
  {
    hide Device.Valid, PendingInterrupt, Device.Pending, TimerQuiet, DmaQuiet, TimerState.TCyclesUntilInterrupt,
         ToVBlank;
  }

  /** What each skip needs, and the bounds its columns need. */
  lemma SkipFacts(m: Machine, mode: MachineEncoder.Mode, c: nat)
    requires Skipping(m, mode, c)
    ensures
      var d := m.device;
      && c > 0 && Fits(d, c) && QuotientFits(d.timer, c) && c <= 0x2_0000
      && (mode.ToVBlankLine? ==> d.ppu.Enabled() && d.ppu.statControl == 0 && 4 * c == ToVBlank(d.ppu))
      && (!mode.ToVBlankLine? ==> !d.ppu.Enabled())
      && (mode.ToSerial? ==> 4 * c == d.serial.remaining)
      && (!mode.ToSerial? ==> d.serial.remaining == 0 && d.serial.control < 128)
      && (!mode.ToTimer? ==> TimerQuiet(d.timer))
      && (mode.ToTimer? ==>
          d.timer.TCyclesUntilInterrupt().Some? && c == (d.timer.TCyclesUntilInterrupt().value + 3) / 4)
  {
    hide Device.Pending, PendingInterrupt, DmaQuiet, TimerState.TCyclesUntilInterrupt, LongSkip, MachineEncoder.Takes;
    SkipLengths(m, mode, c);
    MachineEncoder.LengthFits(m, mode);
    if mode.ToTimer? { SkipLength(m.device.timer, m.device.timer.TCyclesUntilInterrupt().value, c); }
  }

  // ----- the row -----

  function Overshoot(t: TimerState, mode: MachineEncoder.Mode, c: nat): int {
    if mode.ToTimer? && t.TCyclesUntilInterrupt().Some? then 4 * c - t.TCyclesUntilInterrupt().value else 0
  }

  /** A VBlank skip writes no STAT interval. */
  function LongQuiet(d: Device, mode: MachineEncoder.Mode, c: nat): Quiet
    requires d.Valid() && d.AdvanceT(4 * c).Valid()
  {
    var r := QuietRowOf(d, c);
    if mode.ToVBlankLine? then r.(longVBlank := 1, statBoundary := 0, statGap := Zeros(9), statEvent := 0) else r
  }

  /** The row of that skip, whatever the CPU's registers and flow counters. */
  function LongOf(m: Machine, mode: MachineEncoder.Mode, c: nat, registers: seq<int>, flow: seq<int>): Long
    requires m.device.Valid() && m.device.AdvanceT(4 * c).Valid()
  {
    var d := m.device;
    Long(LongQuiet(d, mode, c), LongRowOf(d.timer, d.request.timer, c, Overshoot(d.timer, mode, c)),
         DmaEncoder.ScheduleRow(d.dma, c), MachineEncoder.RowWith(m, mode, registers, flow))
  }

  lemma OvershootFits(m: Machine, mode: MachineEncoder.Mode, c: nat)
    requires Skipping(m, mode, c)
    ensures 0 <= Overshoot(m.device.timer, mode, c) < 4
  {
    hide Device.Valid, TimerState.TCyclesUntilInterrupt, LongSkip, MachineEncoder.Takes, Fits, TimerQuiet, ToVBlank;
    SkipFacts(m, mode, c);
    ValidTimer(m.device);
    if mode.ToTimer? { SkipLength(m.device.timer, m.device.timer.TCyclesUntilInterrupt().value, c); }
  }

  lemma ValidTimer(d: Device)
    requires d.Valid()
    ensures d.timer.Valid() && d.dma.Valid() && d.ppu.Valid() && d.serial.Valid()
  {
  }

  // ----- quiet columns -----

  /** The columns of a VBlank skip. */
  lemma VBlankQuiet(d: Device, mode: MachineEncoder.Mode, c: nat)
    requires d.Valid() && d.AdvanceT(4 * c).Valid() && Fits(d, c) && mode.ToVBlankLine?
    requires d.ppu.Enabled() && d.ppu.statControl == 0 && 4 * c == ToVBlank(d.ppu)
    ensures
      var q := LongQuiet(d, mode, c);
      q.Shape() && q.BooleanIdentitiesHold() && QuietIdentities(q) && LongVBlankIdentities(q)
  {
    hide EncodeSide, BitsOf, PpuTicks, VBlankRaised, StatRaised, Ppu.Signal, ZeroChain, StateIdentities,
         Side.PositionRanged, RegisterIdentities, PositionIdentities, StatIdentities, VBlankIdentities,
         InterruptIdentities, SerialIdentities, Ticks, Requested, RequestBits, Quiet.Boolean,
         Quiet.BooleanIdentitiesHold, Serial.Completes, Serial.Advance, Zeros, Device.Valid, Fits, LongVBlankIdentities;
    var r, e := QuietRowOf(d, c), d.AdvanceT(4 * c);
    QuietRowBoolean(d, c);
    SideRoundTrip(d);
    SideRoundTrip(e);
    SideAccepted(d);
    SideAccepted(e);
    SameSwitch(d, 4 * c);
    VBlankAccepted(d, c);
    InterruptsAccepted(d, c);
    SerialAccepted(d, c);
    PositionRowAccepted(d, c);
    LongColumns(d, mode, c);
    SkipEvent(d, c);
    NoStat(d.ppu, 4 * c);
    VBlankCarried(r, LongQuiet(d, mode, c));
    LongVBlankHolds(d, mode, c);
  }

  lemma SameSwitch(d: Device, n: nat)
    ensures d.AdvanceT(n).ppu.lcdControl == d.ppu.lcdControl && d.AdvanceT(n).ppu.lineCompare == d.ppu.lineCompare
  {
  }

  lemma LongColumns(d: Device, mode: MachineEncoder.Mode, c: nat)
    requires d.Valid() && d.AdvanceT(4 * c).Valid() && QuietRowOf(d, c).Shape() && QuietRowOf(d, c).Boolean()
    ensures LongQuiet(d, mode, c).Shape() && LongQuiet(d, mode, c).BooleanIdentitiesHold()
    ensures QuietRowOf(d, c).statEvent == AsBit(StatRaised(d.ppu, 4 * c))
  {
    hide EncodeSide, BitsOf, PpuTicks, VBlankRaised, StatRaised, Ppu.Signal, ZeroChain, Device.AdvanceT, Device.Valid,
         Quiet.BooleanIdentitiesHold, RequestBits, Serial.Completes, Bits;
    QuietBits(LongQuiet(d, mode, c));
  }

  /** The event of a VBlank skip is set and nothing is left over. */
  lemma SkipEvent(d: Device, c: nat)
    requires d.Valid() && d.AdvanceT(4 * c).Valid() && d.ppu.Enabled() && 4 * c == ToVBlank(d.ppu)
    ensures QuietRowOf(d, c).vblankEvent == 1 && Packed(QuietRowOf(d, c).vblankGap) == 0
  {
    hide EncodeSide, BitsOf, PpuTicks, VBlankRaised, StatRaised, Ppu.Signal, ZeroChain, Device.AdvanceT, RequestBits,
         Serial.Completes, Packed, Pow2;
    EntersAtPosition(d.ppu);
    LineOfPosition(d.ppu);
    Pow2Below(17, 17);
    BitsFit(0, 17, 131072);
  }

  /** The rest of the quiet identities does not see the long mode. */
  lemma VBlankCarried(r: Quiet, q: Quiet)
    requires r.Shape() && q.Shape() && q == r.(longVBlank := 1, statBoundary := 0, statGap := Zeros(9), statEvent := 0)
    requires r.BoundaryIdentities() && RegisterIdentities(1, r) && PositionIdentities(1, r) && VBlankIdentities(1, r)
    requires InterruptIdentities(1, r) && SerialIdentities(1, r) && r.statEvent == 0 && r.vblankEvent == 1
    requires Packed(r.vblankGap) == 0
    ensures QuietIdentities(q)
  {
    hide Packed, CountdownRange, ZeroProducts, StateIdentities, Side.PositionRanged, RegisterIdentities, Countdown,
         Zero, StatIdentities, VBlankIdentities, InterruptIdentities, SerialIdentities, PositionIdentities;
    CarriedPosition(r, q);
    CarriedIntervals(r, q);
    assert q.Base(3) == r.Base(3);
    SameSerial(r, q);
  }

  lemma CarriedPosition(r: Quiet, q: Quiet)
    requires r.Shape() && q.Shape() && q == r.(longVBlank := 1, statBoundary := 0, statGap := Zeros(9), statEvent := 0)
    requires RegisterIdentities(1, r) && PositionIdentities(1, r)
    ensures RegisterIdentities(1, q) && PositionIdentities(1, q)
  {
    hide Zero;
  }

  lemma CarriedIntervals(r: Quiet, q: Quiet)
    requires r.Shape() && q.Shape() && q == r.(longVBlank := 1, statBoundary := 0, statGap := Zeros(9), statEvent := 0)
    requires VBlankIdentities(1, r) && InterruptIdentities(1, r) && r.statEvent == 0 && r.vblankEvent == 1
    requires Packed(r.vblankGap) == 0
    ensures StatIdentities(1, q) && VBlankIdentities(1, q) && InterruptIdentities(1, q)
  {
    hide Packed, Zero, StatDistance;
    ZeroHolds(0);
    ZeroPacked(q.statGap);
    NoInterval(q.Enabled(), 4 * q.cycles, StatDistance(q.before));
    NoEvent(q.before.signal, q.after.signal);
    SkipHolds(q.vblankEvent, Packed(q.vblankGap));
  }

  lemma SkipHolds(event: int, gap: int)
    requires event == 1 && gap == 0
    ensures Zero(1 * (event - 1)) && Zero(1 * gap)
  {
    ZeroHolds(0);
  }

  lemma NoEvent(before: int, after: int)
    ensures Zero(0 - 0 * (1 - before) * after)
  {
    ZeroHolds(0);
    assert 0 * (1 - before) == 0;
  }

  lemma NoInterval(enabled: int, elapsed: int, distance: int)
    ensures ComparisonIdentities(1 * enabled * (1 - 1), elapsed, distance, 0, 0)
  {
    ZeroHolds(0);
    assert 1 * enabled * (1 - 1) == 0;
  }

  lemma LongVBlankHolds(d: Device, mode: MachineEncoder.Mode, c: nat)
    requires d.Valid() && d.AdvanceT(4 * c).Valid() && d.ppu.Enabled() && d.ppu.statControl == 0
    ensures LongQuiet(d, mode, c).Shape() ==> LongVBlankIdentities(LongQuiet(d, mode, c))
  {
    hide EncodeSide, BitsOf, PpuTicks, VBlankRaised, StatRaised, Ppu.Signal, ZeroChain, Device.AdvanceT, RequestBits,
         Serial.Completes, Packed;
    EnabledColumn(d);
    SideRoundTrip(d);
    ZeroHolds(0);
    var q := LongQuiet(d, mode, c);
    if q.Shape() { SkipHolds(q.Enabled(), Packed(q.before.low[40..48])); }
  }

  /** The quiet columns of any long skip: everything but the boundaries is always accepted. */
  lemma QuietColumns(m: Machine, mode: MachineEncoder.Mode, c: nat)
    requires Skipping(m, mode, c) && m.device.AdvanceT(4 * c).Valid()
    ensures
      var q := LongQuiet(m.device, mode, c);
      && q.Shape() && q.BooleanIdentitiesHold() && LongVBlankIdentities(q)
      && (QuietIdentities(q) <==> Encodable(m.device.ppu))
  {
    hide QuietRowOf, QuietIdentities, Device.AdvanceT, Quiet.BooleanIdentitiesHold, Quiet.Shape, LongVBlankIdentities,
         Device.Valid, LongSkip, MachineEncoder.Takes, Fits, TimerQuiet, ToVBlank, TimerState.TCyclesUntilInterrupt;
    SkipFacts(m, mode, c);
    if mode.ToVBlankLine? {
      VBlankQuiet(m.device, mode, c);
    } else {
      ClockAcceptedExactly(m.device, c);
      NotVBlank(m.device, c);
    }
  }

  lemma NotVBlank(d: Device, c: nat)
    requires d.Valid() && d.AdvanceT(4 * c).Valid() && QuietRowOf(d, c).Shape()
    ensures LongVBlankIdentities(QuietRowOf(d, c))
  {
    hide EncodeSide, BitsOf, PpuTicks, VBlankRaised, StatRaised, Ppu.Signal, ZeroChain, Device.AdvanceT, RequestBits,
         Serial.Completes, Packed, Quiet.Enabled;
    ZeroHolds(0);
  }

  // ----- mode identities -----

  lemma Gated(selected: bool, x: int)
    requires selected ==> x == 0
    ensures Zero(AsBit(selected) * x)
  {
    ZeroHolds(0);
  }

  /** Columns every long row shares with the quiet row it is made from. */
  lemma BaseColumns(d: Device, mode: MachineEncoder.Mode, c: nat, q: Quiet)
    requires d.Valid() && d.AdvanceT(4 * c).Valid() && c <= 0x2_0000 && q == LongQuiet(d, mode, c)
    ensures q.Shape() && q.before == EncodeSide(d) && q.after == EncodeSide(d.AdvanceT(4 * c)) && q.cycles == c
    ensures q.completed == AsBit(d.serial.Completes(4 * c)) && q.sources == Zeros(5)
    ensures q.completionGap == BitsOf(if d.serial.Completes(4 * c) then 4 * c - d.serial.remaining else 0, 5)
    ensures q.beforeIf == RequestBits(d.request) && q.afterIf == RequestBits(d.AdvanceT(4 * c).request)
    ensures q.longVBlank == AsBit(mode.ToVBlankLine?)
  {
    hide EncodeSide, BitsOf, PpuTicks, VBlankRaised, StatRaised, Ppu.Signal, ZeroChain, Device.AdvanceT, RequestBits,
         Device.Valid, Serial.Completes;
    FeltLength(c);
  }

  /** What the mode identities read of them. */
  lemma ModeColumns(d: Device, q: Quiet)
    requires d.Valid() && q.Shape() && q.before == EncodeSide(d)
    ensures q.Enabled() == AsBit(d.ppu.Enabled()) && Countdown(q.before) == d.serial.remaining
    ensures d.serial.control < 128 ==> q.before.low[15] == 0
  {
    hide EncodeSide, Packed, Countdown, Device.Valid, Ppu.Enabled;
    EnabledColumn(d);
    CountdownOf(d);
    TopControl(d);
  }

  lemma SerialSkipColumns(d: Device, c: nat, q: Quiet)
    requires q.Shape() && 4 * c == d.serial.remaining && c > 0
    requires q.completed == AsBit(d.serial.Completes(4 * c))
    requires q.completionGap == BitsOf(if d.serial.Completes(4 * c) then 4 * c - d.serial.remaining else 0, 5)
    ensures q.completed == 1 && Packed(q.completionGap) == 0
  {
    hide BitsOf, Packed, Pow2;
    PowerValues();
    BitsFit(0, 5, 32);
  }

  lemma FeltLength(c: nat)
    requires c <= 0x2_0000
    ensures Felt(c)
  {
  }

  lemma TopControl(d: Device)
    requires d.Valid()
    ensures d.serial.control < 128 ==> EncodeSide(d).low[15] == 0
  {
    hide EncodeSide, Packed;
    SideRoundTrip(d);
    SideBoolean(d);
    ControlTopBit(EncodeSide(d));
  }

  lemma TimerColumns(m: Machine, mode: MachineEncoder.Mode, c: nat)
    requires Skipping(m, mode, c)
    ensures
      var t := m.device.timer;
      var r := LongRowOf(t, m.device.request.timer, c, Overshoot(t, mode, c));
      && r.Shape() && r.BooleanIdentitiesHold() && r.Before() == t && r.After() == Ticks(t, 4 * c) && r.cycles == c
      && LongTimerRow.DividerIdentity(r)
      && (mode.ToTimer? ==> UntilTimerIdentities(r)) && (!mode.ToTimer? ==> StoppedIdentities(r))
      && r.requestBefore == AsBit(m.device.request.timer)
      && r.requestAfter == AsBit(m.device.request.timer || Requested(t, 4 * c))
  {
    hide Device.Valid, TimerState.TCyclesUntilInterrupt, LongSkip, MachineEncoder.Takes, Fits, ToVBlank, LongRowOf,
         Ticks, Requested, UntilTimerIdentities, StoppedIdentities, LongTimerRow.DividerIdentity,
         LongRow.BooleanIdentitiesHold, LongRow.Before, LongRow.After, LongRow.Shape;
    var t, i := m.device.timer, m.device.request.timer;
    var gap := Overshoot(t, mode, c);
    SkipFacts(m, mode, c);
    ValidTimer(m.device);
    OvershootFits(m, mode, c);
    LongRowParts(t, i, c, gap);
    ScalarColumns(t, i, c, gap);
    if mode.ToTimer? { UntilTimerRowComplete(t, i, t.TCyclesUntilInterrupt().value, c); }
    else { StoppedRowAcceptedExactly(t, i, c); }
  }

  lemma DmaParts(d: Device, c: nat)
    requires d.Valid() && DmaQuiet(d.dma) && c <= 0x2_0000
    ensures
      var r := DmaEncoder.ScheduleRow(d.dma, c);
      && r.Shape() && r.BooleanIdentitiesHold() && r.before.Decode() == d.dma && r.cycles == c && r.before.Active() == 0
      && DmaRow.CursorIdentities(r.before) && DmaRow.CursorIdentities(r.after) && DmaRow.ScheduleIdentities(r)
  {
    hide DmaRow.CursorIdentities, DmaRow.ScheduleIdentities, DmaEncoder.EncodeCursor, BitsOf, Packed;
    DmaEncoder.ScheduleAccepted(d.dma, c);
    DmaRow.DmaBits(DmaEncoder.ScheduleRow(d.dma, c));
    DmaEncoder.CursorRoundTrip(d.dma);
    DmaEncoder.CursorParts(d.dma);
  }

  lemma ModesHold(m: Machine, mode: MachineEncoder.Mode, c: nat, registers: seq<int>, flow: seq<int>)
    requires Skipping(m, mode, c) && m.device.AdvanceT(4 * c).Valid() && LongOf(m, mode, c, registers, flow).Shape()
    ensures LongSkipRow.ModeIdentities(LongOf(m, mode, c, registers, flow))
  {
    hide EncodeSide, Device.AdvanceT, Packed, Countdown, Device.Valid, LongSkip, MachineEncoder.Takes, Fits, ToVBlank,
         TimerState.TCyclesUntilInterrupt, LongQuiet, LongRowOf, UntilTimerIdentities, StoppedIdentities, Zero,
         LongTimerRow.DividerIdentity, LongRow.BooleanIdentitiesHold, LongVBlankIdentities, Quiet.Enabled,
         MachineEncoder.Length, MachineEncoder.SlotsOf, DmaEncoder.ScheduleRow, Overshoot, QuietIdentities,
         Quiet.BooleanIdentitiesHold, RequestBits, DmaRow.CursorIdentities, DmaRow.ScheduleIdentities, LongRow.Before,
         LongRow.After, Ticks, Requested, DmaRow.DmaColumns.BooleanIdentitiesHold;
    var d, q := m.device, LongQuiet(m.device, mode, c);
    SkipFacts(m, mode, c);
    SkipLengths(m, mode, c);
    QuietColumns(m, mode, c);
    BaseColumns(m.device, mode, c, LongQuiet(m.device, mode, c));
    TimerColumns(m, mode, c);
    DmaParts(d, c);
    ModeColumns(d, q);
    if mode.ToSerial? { SerialSkipColumns(d, c, q); }
    Gated(mode.ToSerial?, q.completed - 1);
    Gated(mode.ToSerial?, Packed(q.completionGap));
    Gated(mode.ToSerial?, q.Enabled());
    Gated(mode.ToTimer?, q.Enabled());
    Gated(mode.ToVBlankLine?, Countdown(q.before));
    Gated(mode.ToVBlankLine?, q.before.low[15]);
    Gated(mode.ToTimer?, Countdown(q.before));
    Gated(mode.ToTimer?, q.before.low[15]);
    Gated(true, DmaEncoder.ScheduleRow(d.dma, c).before.Active());
  }

  // ----- the whole row -----

  lemma PlainPacked(d: Device)
    requires d.Valid()
    ensures PlainOf(EncodeSide(d)) == d.plain
  {
    hide Packed, BitsOf, Pow2, EncodeSide;
    EncodedColumns(d);
    PlainBytes(d);
    PowerValues();
    BitsFit(d.plain.scrollY, 8, 256);
    BitsFit(d.plain.scrollX, 8, 256);
    BitsFit(d.plain.bgPalette, 8, 256);
    BitsFit(d.plain.objPalette0, 8, 256);
    BitsFit(d.plain.objPalette1, 8, 256);
    BitsFit(d.plain.windowY, 8, 256);
    BitsFit(d.plain.windowX, 8, 256);
  }

  lemma PlainBytes(d: Device)
    ensures
      var low, high := LowPack(d), HighPack(d);
      && low[48..56] == Byte(d.plain.scrollY) && low[56..64] == Byte(d.plain.scrollX)
      && high[0..8] == Byte(d.plain.bgPalette) && high[8..16] == Byte(d.plain.objPalette0)
      && high[16..24] == Byte(d.plain.objPalette1) && high[24..32] == Byte(d.plain.windowY)
      && high[32..40] == Byte(d.plain.windowX)
  {
    hide Byte, BitsOf;
  }

  lemma RowShares(m: Machine, mode: MachineEncoder.Mode, c: nat, registers: seq<int>, flow: seq<int>)
    requires Skipping(m, mode, c) && m.device.AdvanceT(4 * c).Valid() && LongOf(m, mode, c, registers, flow).Shape()
    ensures LongOf(m, mode, c, registers, flow).Shares() && LongOf(m, mode, c, registers, flow).Selected() == 1
  {
    hide EncodeSide, Packed, Countdown, Device.Valid, LongSkip, MachineEncoder.Takes, Fits, ToVBlank, PpuTicks,
         TimerState.TCyclesUntilInterrupt, LongQuiet, LongRowOf, UntilTimerIdentities, StoppedIdentities, Zero,
         LongTimerRow.DividerIdentity, LongRow.BooleanIdentitiesHold, MachineEncoder.Length, MachineEncoder.SlotsOf,
         DmaEncoder.ScheduleRow, Overshoot, DmaRow.CursorIdentities, DmaRow.ScheduleIdentities, LongRow.Before,
         LongRow.After, Ticks, Requested, DmaRow.DmaColumns.BooleanIdentitiesHold, Quiet.Enabled, VBlankRaised,
         StatRaised, Serial.Advance, Serial.Completes;
    SkipFacts(m, mode, c);
    SkipLengths(m, mode, c);
    BaseColumns(m.device, mode, c, LongQuiet(m.device, mode, c));
    TimerColumns(m, mode, c);
    DmaParts(m.device, c);
    NoSourceColumns(mode);
    SetupColumns(m.device);
    ScalarColumns(m.device.timer, m.device.request.timer, c, Overshoot(m.device.timer, mode, c));
    ThirdBit(m.device.request);
    ThirdBit(m.device.AdvanceT(4 * c).request);
  }

  lemma SetupColumns(d: Device)
    requires d.Valid()
    ensures EncodeSetup(d.timer).modulo == EncodeSide(d).low[16..24]
    ensures EncodeSetup(d.timer).control == EncodeSide(d).low[24..27]
  {
    hide EncodeSide, BitsOf;
    EncodedColumns(d);
    SetupBytes(d);
    LowThree(d.timer.control);
    assert EncodeSide(d).low[24..27] == EncodeSide(d).low[24..32][..3];
  }

  lemma SetupBytes(d: Device)
    ensures LowPack(d)[16..24] == Byte(d.timer.modulo) && LowPack(d)[24..32] == Byte(d.timer.control)
  {
    hide Byte, BitsOf;
  }

  lemma LowThree(x: int)
    ensures BitsOf(x, 8)[..3] == BitsOf(x, 3)
  {
    var y := x / 2;
    var z := y / 2;
    assert BitsOf(x, 8) == [x % 2] + ([y % 2] + ([z % 2] + BitsOf(z / 2, 5)));
    assert BitsOf(x, 3) == [x % 2] + ([y % 2] + ([z % 2] + BitsOf(z / 2, 0)));
  }

  lemma ThirdBit(l: Lines)
    ensures RequestBits(l)[2] == AsBit(l.timer)
  {
  }

  lemma NoSourceColumns(mode: MachineEncoder.Mode)
    requires !mode.Dispatching?
    ensures MachineEncoder.SourceColumns(mode) == Zeros(5)
  {
  }

  lemma RowStarts(m: Machine, mode: MachineEncoder.Mode, c: nat, registers: seq<int>, flow: seq<int>)
    requires MachineEncoder.Scalars(registers) && MachineEncoder.Scalars(flow)
    requires Skipping(m, mode, c) && m.device.AdvanceT(4 * c).Valid()
    ensures LongOf(m, mode, c, registers, flow).Shape() && LongOf(m, mode, c, registers, flow).BooleanIdentitiesHold()
    ensures StartsFrom(LongOf(m, mode, c, registers, flow), m)
  {
    hide EncodeSide, Device.AdvanceT, Packed, Countdown, Device.Valid, LongSkip, MachineEncoder.Takes, Fits, ToVBlank,
         TimerState.TCyclesUntilInterrupt, LongQuiet, LongRowOf, UntilTimerIdentities, StoppedIdentities, Zero,
         LongTimerRow.DividerIdentity, LongRow.BooleanIdentitiesHold, LongVBlankIdentities, Quiet.Enabled,
         MachineEncoder.RowWith, DmaEncoder.ScheduleRow, Overshoot, QuietIdentities, Quiet.BooleanIdentitiesHold,
         RequestBits, DmaRow.CursorIdentities, DmaRow.ScheduleIdentities, LongRow.Before, LongRow.After, Ticks,
         Requested, DmaRow.DmaColumns.BooleanIdentitiesHold, Side.Decode, SerialOf, PlainOf, MachineRow.Carries,
         MachineRow.MachineColumns.BooleanIdentitiesHold, MachineRow.MachineColumns.Boolean, LongRow.Shape, Quiet.Shape,
         DmaRow.DmaColumns.Shape, MachineRow.MachineColumns.Shape, TimerQuiet;
    SkipFacts(m, mode, c);
    SkipLengths(m, mode, c);
    QuietColumns(m, mode, c);
    BaseColumns(m.device, mode, c, LongQuiet(m.device, mode, c));
    TimerColumns(m, mode, c);
    DmaParts(m.device, c);
    SideRoundTrip(m.device);
    PlainPacked(m.device);
    MachineEncoder.MachineRowAcceptedExactly(m, mode, registers, flow);
    MachineRow.CarriesShape(MachineEncoder.RowWith(m, mode, registers, flow), m);
  }

  /**
    * Completeness of long rows: for every machine that takes a long skip, the encoder's row of that skip starts from it
    * and meets every relation exactly when the LCD is on or LYC is odd; so every VBlank skip has its row.
    */
  lemma LongRowAcceptedExactly(m: Machine, mode: MachineEncoder.Mode, c: nat, registers: seq<int>, flow: seq<int>)
    requires MachineEncoder.Scalars(registers) && MachineEncoder.Scalars(flow)
    requires Skipping(m, mode, c)
    ensures m.device.AdvanceT(4 * c).Valid()
    ensures Satisfies(LongOf(m, mode, c, registers, flow), m) <==> Encodable(m.device.ppu)
  {
    AdvanceValid(m.device, 4 * c);
    LongParts(m, mode, c, registers, flow);
  }

  lemma LongParts(m: Machine, mode: MachineEncoder.Mode, c: nat, registers: seq<int>, flow: seq<int>)
    requires MachineEncoder.Scalars(registers) && MachineEncoder.Scalars(flow)
    requires Skipping(m, mode, c) && m.device.AdvanceT(4 * c).Valid()
    ensures Satisfies(LongOf(m, mode, c, registers, flow), m) <==> Encodable(m.device.ppu)
  {
    hide EncodeSide, Device.AdvanceT, Device.Valid, LongSkip, MachineEncoder.Takes, Fits, ToVBlank, TimerQuiet,
         TimerState.TCyclesUntilInterrupt, LongQuiet, LongRowOf, UntilTimerIdentities, StoppedIdentities, Zero,
         LongTimerRow.DividerIdentity, LongVBlankIdentities, MachineEncoder.RowWith, DmaEncoder.ScheduleRow, Overshoot,
         QuietIdentities, RequestBits, DmaRow.CursorIdentities, DmaRow.ScheduleIdentities, Ticks, Requested, StartsFrom,
         Long.BooleanIdentitiesHold, Long.Shape, Long.Shares, LongSkipRow.ModeIdentities, LongRow.Before, LongRow.After,
         MachineRow.ModeIdentities, Long.Selected, Countdown, Packed, MachineRow.Carries, Quiet.BooleanIdentitiesHold,
         LongRow.BooleanIdentitiesHold, DmaRow.DmaColumns.BooleanIdentitiesHold,
         MachineRow.MachineColumns.BooleanIdentitiesHold, MachineEncoder.Length, Quiet.Enabled,
         MachineRow.KeptIdentities, MachineRow.InputIdentities, MachineRow.DispatchIdentities,
         MachineRow.KindIdentities, MachineRow.PlainMemory;
    SkipFacts(m, mode, c);
    SkipLengths(m, mode, c);
    RowStarts(m, mode, c, registers, flow);
    RowShares(m, mode, c, registers, flow);
    QuietColumns(m, mode, c);
    ModesHold(m, mode, c, registers, flow);
    TimerColumns(m, mode, c);
    DmaParts(m.device, c);
    MachineEncoder.MachineRowAcceptedExactly(m, mode, registers, flow);
    MachineCycles(m, mode, c, registers, flow);
  }

  lemma MachineCycles(m: Machine, mode: MachineEncoder.Mode, c: nat, registers: seq<int>, flow: seq<int>)
    requires MachineEncoder.Length(m, mode) == c
    ensures MachineEncoder.RowWith(m, mode, registers, flow).cycles == c
  {
    hide MachineEncoder.Length, BitsOf;
  }
}
