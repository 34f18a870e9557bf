/** Long HALT rows: the three skip modes are exact, so such a row is the idle-only run it replaces. */
module LongSkipRow {

  import opened Wrappers
  import opened Field
  import opened Timer
  import opened Devices
  import opened HaltSkips
  import opened Bus
  import opened Steps
  import opened PpuRow
  import opened QuietRow
  import opened SerialRow
  import opened LongTimerRow
  import opened DmaRow
  import MachineRow
  import HaltIdleRow

  /** One long block: its quiet, timer, DMA and machine columns. */
  datatype Long = Long(quiet: Quiet, timer: LongRow, dma: DmaColumns, machine: MachineRow.MachineColumns) {
    predicate Shape() { quiet.Shape() && timer.Shape() && dma.Shape() && machine.Shape() }

    predicate BooleanIdentitiesHold() {
      && quiet.BooleanIdentitiesHold() && timer.BooleanIdentitiesHold()
      && dma.BooleanIdentitiesHold() && machine.BooleanIdentitiesHold()
    }

    /** The relations read the same cycle, interrupt, mode and register columns. */
    predicate Shares()
      requires Shape()
    {
      && quiet.cycles == machine.cycles && timer.cycles == machine.cycles && dma.cycles == machine.cycles
      && quiet.longVBlank == machine.untilVBlank && quiet.beforeIf == machine.requests
      && quiet.sources == machine.sources
      && timer.requestBefore == quiet.beforeIf[2] && timer.requestAfter == quiet.afterIf[2]
      && timer.setup.modulo == quiet.before.low[16..24] && timer.setup.control == quiet.before.low[24..27]
    }

    function Selected(): int { machine.untilVBlank + machine.untilSerial + machine.untilTimer }
  }

  /** What the relations add in a long mode. */
  predicate ModeIdentities(l: Long)
    requires l.Shape()
  {
    var m, q := l.machine, l.quiet;
    && LongVBlankIdentities(q) && LongSerialIdentities(m.untilSerial, q) && Zero(m.untilTimer * q.Enabled())
    && NoTransferIdentities(m.untilVBlank, q) && NoTransferIdentities(m.untilTimer, q)
    && (m.untilTimer == 1 ==> UntilTimerIdentities(l.timer)) && (m.untilTimer != 1 ==> StoppedIdentities(l.timer))
    && LongDmaIdentity(l.Selected(), l.dma)
  }

  predicate Identities(l: Long)
    requires l.Shape()
  {
    && QuietIdentities(l.quiet) && LongTimerRow.DividerIdentity(l.timer)
    && CursorIdentities(l.dma.before) && CursorIdentities(l.dma.after) && ScheduleIdentities(l.dma)
    && MachineRow.ModeIdentities(l.machine) && MachineRow.KeptIdentities(l.machine) && ModeIdentities(l)
  }

  /** The before columns are those of machine `m`. */
  predicate StartsFrom(l: Long, m: Machine) {
    && l.Shape() && MachineRow.Carries(l.machine, m)
    && m.device.ppu == l.quiet.before.Decode() && m.device.serial == SerialOf(l.quiet.before)
    && m.device.timer == l.timer.Before() && m.device.dma == l.dma.before.Decode()
    && m.device.plain == PlainOf(l.quiet.before)
  }

  /** The after columns are those of device `d`; IE and the joypad are outside these relations. */
  predicate EndsIn(l: Long, d: Device) {
    && l.Shape()
    && d.ppu == l.quiet.after.Decode() && d.serial == SerialOf(l.quiet.after) && d.timer == l.timer.After()
    && d.dma == l.dma.after.Decode() && d.plain == PlainOf(l.quiet.after)
    && d.request == HaltIdleRow.LinesOf(l.quiet.afterIf)
  }

  /** The CPU columns after the row are those of `cpu`, registers and flow are kept, and the bus is unused. */
  predicate KeepsCpu(l: Long, cpu: Cpu)
    requires l.Shape()
  {
    var r := l.machine;
    && r.afterPc == cpu.pc && r.afterSp == cpu.sp
    && r.afterIme == MachineRow.ImeCode(cpu.ime) && r.afterRun == MachineRow.RunCode(cpu.run)
    && r.kept.registersAfter == r.kept.registers && r.kept.flowAfter == r.kept.flow && r.kept.active == [0, 0, 0, 0, 0]
  }

  // ----- modes -----

  lemma OneSkip(l: Long)
    requires l.machine.Boolean() && l.Selected() == 1 && l.Shape() && MachineRow.ModeIdentities(l.machine)
    ensures l.machine.Sleeping() == 1 && l.machine.interrupt == 0 && l.machine.idle == 0
    ensures Bit(l.machine.untilVBlank) && Bit(l.machine.untilSerial) && Bit(l.machine.untilTimer)
  {
    hide MachineRow.PriorityIdentities, MachineRow.SkipIdentities, Zero;
    MachineRow.FlagBits(l.machine);
    MachineRow.OneMode(l.machine);
  }

  lemma NoSources(l: Long, m: Machine)
    requires MachineRow.Carries(l.machine, m) && l.machine.Boolean() && l.machine.interrupt == 0
    requires MachineRow.ModeIdentities(l.machine)
    ensures forall k: nat :: k < 5 ==> l.machine.sources[k] == 0
  {
    hide MachineRow.PriorityIdentities, MachineRow.Carries, Zero, MachineRow.First;
    MachineRow.CarriesShape(l.machine, m);
    forall k: nat | k < 5 ensures l.machine.sources[k] == 0 { MachineRow.SourceForced(l.machine, m, k); }
  }

  /** Without a dispatched source every base bit is the request before. */
  lemma BaseIsBefore(l: Long)
    requires l.Shape() && l.Shares() && forall k: nat :: k < 5 ==> l.machine.sources[k] == 0
    ensures forall k: nat :: k < 5 ==> l.quiet.Base(k) == l.quiet.beforeIf[k]
  {
  }

  // ----- starting conditions -----

  lemma DmaResting(l: Long)
    requires l.Shape() && l.dma.BooleanIdentitiesHold() && l.Selected() == 1 && LongDmaIdentity(l.Selected(), l.dma)
    requires CursorIdentities(l.dma.before) && CursorIdentities(l.dma.after) && ScheduleIdentities(l.dma)
    requires l.dma.cycles < 0x1_0000_0000_0000_0000
    ensures DmaQuiet(l.dma.before.Decode()) && l.dma.after.Decode() == l.dma.before.Decode()
  {
    hide CursorIdentities, ScheduleIdentities, Packed, Zero, DmaColumns.BooleanIdentitiesHold;
    DmaBits(l.dma);
    ScheduleForced(l.dma);
    CursorForced(l.dma.before);
    EqNothing(1, l.dma.before.Active());
  }

  lemma EqMode(l: Long)
    requires l.Shape() && l.quiet.Boolean() && ModeIdentities(l)
    ensures l.machine.untilTimer == 1 ==> !l.quiet.before.Decode().Enabled()
  {
    hide Packed, Zero, LongVBlankIdentities, LongSerialIdentities, NoTransferIdentities, UntilTimerIdentities,
         StoppedIdentities, LongDmaIdentity;
    RegisterBits(l.quiet.before);
    if l.machine.untilTimer == 1 { EqNothing(1, l.quiet.before.low[39]); }
  }

  lemma StoppedStart(r: LongRow)
    requires r.Shape() && r.BooleanIdentitiesHold() && StoppedIdentities(r)
    ensures TimerQuiet(r.Before())
  {
    hide LongRow.BooleanIdentitiesHold;
    LongBits(r);
    Packed3(r.setup.control);
    hide Packed;
    ZeroIsZero(r.setup.control[2]);
    SameColumn(r.phase, 0);
    SameColumn(r.latch, 0);
  }

  /** The enabled lines a mode needs, and that nothing is waiting. */
  lemma ModeStarts(l: Long, m: Machine)
    requires MachineRow.Carries(l.machine, m) && l.machine.BooleanIdentitiesHold() && l.Selected() == 1 && l.Shape()
    requires MachineRow.ModeIdentities(l.machine)
    ensures m.cpu.run == Halted && !m.device.Pending() && PendingInterrupt(m.device).None?
    ensures l.machine.untilVBlank == 1 ==> m.device.enable.vblank && !m.device.enable.joypad
    ensures l.machine.untilSerial == 1 ==> m.device.enable.serial
    ensures l.machine.untilTimer == 1 ==> m.device.enable.timer
  {
    hide MachineRow.ModeIdentities, MachineRow.MachineColumns.BooleanIdentitiesHold, Long.Shape;
    MachineRow.MachineBits(l.machine);
    OneSkip(l);
    MachineRow.SleepRowForced(l.machine, m);
  }

  // ----- each mode is the native skip -----

  lemma VBlankNative(d: Device, c: int)
    requires d.ppu.Valid() && d.ppu.Enabled() && d.ppu.statControl == 0 && 4 * c == ToVBlank(d.ppu)
    requires !d.Pending() && d.enable.vblank && !d.enable.joypad && TimerQuiet(d.timer) && DmaQuiet(d.dma)
    requires d.serial.remaining == 0 && d.serial.control < 128
    ensures LongSkip(d) == Some(c)
  {
    hide Device.Pending, TimerQuiet, DmaQuiet, UntilSerial, UntilTimer;
  }

  lemma SerialNative(d: Device, c: int)
    requires !d.ppu.Enabled() && d.serial.Valid() && 4 * c == d.serial.remaining && c > 0
    requires !d.Pending() && d.enable.serial && TimerQuiet(d.timer) && DmaQuiet(d.dma)
    ensures LongSkip(d) == Some(c)
  {
    hide Device.Pending, TimerQuiet, DmaQuiet, UntilTimer;
  }

  lemma TimerNative(d: Device, c: int, k: int)
    requires !d.ppu.Enabled() && d.serial.remaining == 0 && d.serial.control < 128 && !d.Pending() && d.enable.timer
    requires DmaQuiet(d.dma) && d.timer.TCyclesUntilInterrupt() == Some(k) && k >= 0 && c == (k + 3) / 4
    ensures LongSkip(d) == Some(c)
  {
    hide Device.Pending, TimerQuiet, DmaQuiet, TimerState.TCyclesUntilInterrupt;
  }

  // ----- what the columns say after the row -----

  lemma SamePlain(q: Quiet)
    requires q.Shape() && q.Boolean() && RegisterIdentities(1, q)
    ensures PlainOf(q.after) == PlainOf(q.before)
  {
    hide Packed;
    RegistersKept(q);
    var a, b := q.after, q.before;
    assert a.low[48..56] == a.low[16..][32..40] && b.low[48..56] == b.low[16..][32..40];
    assert a.low[56..64] == a.low[16..][40..48] && b.low[56..64] == b.low[16..][40..48];
    assert forall i, j :: 0 <= i <= j <= 48 ==> a.high[i..j] == a.high[..48][i..j];
    assert forall i, j :: 0 <= i <= j <= 48 ==> b.high[i..j] == b.high[..48][i..j];
  }

  lemma QuietPart(q: Quiet)
    requires q.Shape() && q.BooleanIdentitiesHold() && QuietIdentities(q) && Measured(q) && q.before.Decode().Valid()
    requires forall k: nat :: k < 5 ==> q.Base(k) == q.beforeIf[k]
    ensures
      var p, s, n := q.before.Decode(), SerialOf(q.before), 4 * q.cycles;
      && q.after.Decode() == PpuTicks(p, n) && SerialOf(q.after) == s.Advance(n)
      && PlainOf(q.after) == PlainOf(q.before)
      && q.afterIf[0] == AsBit(q.beforeIf[0] == 1 || VBlankRaised(p, n))
      && q.afterIf[1] == AsBit(q.beforeIf[1] == 1 || StatRaised(p, n))
      && q.afterIf[3] == AsBit(q.beforeIf[3] == 1 || s.Completes(n)) && q.afterIf[4] == q.beforeIf[4]
      && s.Valid()
  {
    hide Quiet.BooleanIdentitiesHold, Quiet.BoundaryIdentities, RegisterIdentities, PositionIdentities, StatIdentities,
         VBlankIdentities, InterruptIdentities, SerialIdentities, Side.Decode, SerialOf, PlainOf, Quiet.Base, PpuTicks,
         VBlankRaised, StatRaised, Serial.Advance, Serial.Completes, LongVBlankIdentities;
    QuietBits(q);
    PositionForced(q);
    PpuInterruptsForced(q);
    SerialForced(q);
    SamePlain(q);
  }

  lemma TimerPart(r: LongRow, until: bool)
    requires r.Shape() && r.BooleanIdentitiesHold() && LongTimerRow.DividerIdentity(r)
    requires r.cycles < 0x1_0000_0000_0000_0000
    requires if until then UntilTimerIdentities(r) else StoppedIdentities(r)
    ensures r.After() == Ticks(r.Before(), 4 * r.cycles)
    ensures r.requestAfter == AsBit(r.requestBefore == 1 || Requested(r.Before(), 4 * r.cycles))
  {
    hide LongRow.BooleanIdentitiesHold, LongTimerRow.DividerIdentity, UntilTimerIdentities, StoppedIdentities,
         LongRow.Before, LongRow.After, Ticks, Requested;
    LongBits(r);
    if until { UntilTimerForced(r); } else { StoppedForced(r); }
  }

  // ----- the whole row -----

  /** A row in one of the three long modes that meets all relations and starts from `m`. */
  predicate Satisfies(l: Long, m: Machine) {
    && l.Shape() && l.BooleanIdentitiesHold() && l.Shares() && StartsFrom(l, m) && Identities(l)
    && m.device.Valid() && l.Selected() == 1 && l.machine.cycles < 0x1_0000_0000_0000_0000
  }

  /** Mode, sources and starting facts in one place. */
  lemma Starts(l: Long, m: Machine)
    requires Satisfies(l, m)
    ensures m.cpu.run == Halted && !m.device.Pending() && PendingInterrupt(m.device).None? && DmaQuiet(m.device.dma)
    ensures l.dma.after.Decode() == m.device.dma
    ensures Bit(l.machine.untilVBlank) && Bit(l.machine.untilSerial) && Bit(l.machine.untilTimer)
    ensures l.machine.untilVBlank == 1 ==> m.device.enable.vblank && !m.device.enable.joypad
    ensures l.machine.untilSerial == 1 ==> m.device.enable.serial
    ensures l.machine.untilTimer == 1 ==> m.device.enable.timer && !m.device.ppu.Enabled()
    ensures forall k: nat :: k < 5 ==> l.quiet.Base(k) == l.quiet.beforeIf[k]
  {
    hide Packed, Zero, Side.Decode, SerialOf, PlainOf, MachineRow.Carries, MachineRow.ModeIdentities,
         MachineRow.KeptIdentities, QuietIdentities, LongTimerRow.DividerIdentity, CursorIdentities, ScheduleIdentities,
         StoppedIdentities, UntilTimerIdentities, LongVBlankIdentities, LongSerialIdentities, NoTransferIdentities,
         LongDmaIdentity, Device.Pending, Ppu.Enabled, Device.Valid, DmaQuiet, Quiet.BooleanIdentitiesHold,
         LongRow.BooleanIdentitiesHold, DmaColumns.BooleanIdentitiesHold,
         MachineRow.MachineColumns.BooleanIdentitiesHold, PendingInterrupt;
    MachineRow.MachineBits(l.machine);
    QuietBits(l.quiet);
    OneSkip(l);
    NoSources(l, m);
    BaseIsBefore(l);
    ModeStarts(l, m);
    DmaResting(l);
    EqMode(l);
  }

  lemma VBlankMode(l: Long, m: Machine)
    requires Satisfies(l, m) && l.machine.untilVBlank == 1 && l.machine.untilTimer == 0
    ensures LongSkip(m.device) == Some(l.machine.cycles)
  {
    hide Packed, Zero, Side.Decode, SerialOf, PlainOf, MachineRow.Carries, MachineRow.ModeIdentities,
         MachineRow.KeptIdentities, Quiet.BoundaryIdentities, RegisterIdentities, PositionIdentities, VBlankIdentities,
         StatIdentities, InterruptIdentities, LongTimerRow.DividerIdentity, CursorIdentities, ScheduleIdentities,
         StoppedIdentities, UntilTimerIdentities, LongVBlankIdentities, LongSerialIdentities, NoTransferIdentities,
         LongDmaIdentity, Device.Pending, Ppu.Enabled, DmaQuiet, TimerQuiet, Quiet.BooleanIdentitiesHold, ToVBlank,
         LongRow.BooleanIdentitiesHold, DmaColumns.BooleanIdentitiesHold, LongSkip, PpuTicks, LongRow.Before,
         MachineRow.MachineColumns.BooleanIdentitiesHold, PendingInterrupt, CountdownRange, ZeroProducts,
         CountdownIdentities, SerialRegisterIdentities, Ppu.Valid;
    Starts(l, m);
    LongVBlankForced(l.quiet);
    NoTransferForced(l.quiet);
    StoppedStart(l.timer);
    VBlankNative(m.device, l.machine.cycles);
  }

  lemma SerialMode(l: Long, m: Machine)
    requires Satisfies(l, m) && l.machine.untilSerial == 1 && l.machine.untilTimer == 0
    ensures LongSkip(m.device) == Some(l.machine.cycles) && !m.device.ppu.Enabled()
  {
    hide Packed, Zero, Side.Decode, SerialOf, PlainOf, MachineRow.Carries, MachineRow.ModeIdentities,
         MachineRow.KeptIdentities, Quiet.BoundaryIdentities, RegisterIdentities, PositionIdentities, VBlankIdentities,
         StatIdentities, InterruptIdentities, LongTimerRow.DividerIdentity, CursorIdentities, ScheduleIdentities,
         StoppedIdentities, UntilTimerIdentities, LongVBlankIdentities, LongSerialIdentities, NoTransferIdentities,
         LongDmaIdentity, Device.Pending, Ppu.Enabled, DmaQuiet, TimerQuiet, Quiet.BooleanIdentitiesHold, Serial.Valid,
         LongRow.Before, LongRow.BooleanIdentitiesHold, DmaColumns.BooleanIdentitiesHold, LongSkip, SerialIdentities,
         MachineRow.MachineColumns.BooleanIdentitiesHold, PendingInterrupt, Ppu.Valid;
    Starts(l, m);
    LongSerialForced(l.quiet);
    StoppedStart(l.timer);
    SerialNative(m.device, l.machine.cycles);
  }

  lemma TimerMode(l: Long, m: Machine)
    requires Satisfies(l, m) && l.machine.untilTimer == 1
    ensures LongSkip(m.device) == Some(l.machine.cycles)
  {
    hide Packed, Zero, Side.Decode, SerialOf, PlainOf, MachineRow.Carries, MachineRow.ModeIdentities,
         MachineRow.KeptIdentities, Quiet.BoundaryIdentities, RegisterIdentities, PositionIdentities, VBlankIdentities,
         StatIdentities, InterruptIdentities, LongTimerRow.DividerIdentity, CursorIdentities, ScheduleIdentities,
         StoppedIdentities, UntilTimerIdentities, LongVBlankIdentities, LongSerialIdentities, NoTransferIdentities,
         LongDmaIdentity, Device.Pending, Ppu.Enabled, DmaQuiet, Quiet.BooleanIdentitiesHold, LongRow.Before,
         Device.Valid, LongRow.BooleanIdentitiesHold, DmaColumns.BooleanIdentitiesHold, LongSkip, CountdownRange,
         ZeroProducts, CountdownIdentities, SerialRegisterIdentities, TimerState.TCyclesUntilInterrupt, Ticks,
         Requested, MachineRow.MachineColumns.BooleanIdentitiesHold, PendingInterrupt;
    Starts(l, m);
    NoTransferForced(l.quiet);
    UntilTimerForced(l.timer);
    var k := m.device.timer.TCyclesUntilInterrupt().value;
    InterruptDistanceExact(m.device.timer, 0);
    TimerNative(m.device, l.machine.cycles, k);
  }

  /**
    * Long rows are exact: whatever the mode columns claim, a satisfying row is the native long skip of its starting
    * machine, for exactly its M-cycles, and ends in the device that many single M-cycles reach.
    */
  lemma LongSkipRowExact(l: Long, m: Machine)
    requires Satisfies(l, m)
    ensures Classify(m) == Ok(Some(Skip(l.machine.cycles))) && LongSkip(m.device) == Some(l.machine.cycles)
    ensures EndsIn(l, m.device.AdvanceT(4 * l.machine.cycles)) && KeepsCpu(l, m.cpu)
  {
    hide Satisfies, KeepsCpu, LongSkip, PendingInterrupt, EndsIn, Device.Pending, DmaQuiet, Device.AdvanceT;
    Starts(l, m);
    SkipTaken(l, m);
    RowEnds(l, m);
    CpuKept(l, m);
  }

  lemma CpuKept(l: Long, m: Machine)
    requires Satisfies(l, m)
    ensures l.Shape() && KeepsCpu(l, m.cpu)
  {
    hide MachineRow.Carries, MachineRow.ModeIdentities, MachineRow.KeptIdentities, QuietIdentities, CursorIdentities,
         LongTimerRow.DividerIdentity, ScheduleIdentities, ModeIdentities, Device.Valid, Long.Shares,
         MachineRow.MachineColumns.BooleanIdentitiesHold, Quiet.BooleanIdentitiesHold, LongRow.BooleanIdentitiesHold,
         DmaColumns.BooleanIdentitiesHold;
    MachineRow.MachineBits(l.machine);
    OneSkip(l);
    MachineRow.OneGate(l.machine);
    MachineRow.CpuForced(l.machine, m);
  }

  lemma SkipTaken(l: Long, m: Machine)
    requires Satisfies(l, m)
    ensures LongSkip(m.device) == Some(l.machine.cycles)
    ensures l.machine.untilVBlank == 0 ==> !m.device.ppu.Enabled()
  {
    hide LongSkip, PendingInterrupt, Device.Pending, DmaQuiet, Identities, StartsFrom, Long.BooleanIdentitiesHold,
         Long.Shares, Device.Valid, Ppu.Enabled;
    Starts(l, m);
    if l.machine.untilTimer == 1 { TimerMode(l, m); }
    else if l.machine.untilSerial == 1 { SerialMode(l, m); }
    else { VBlankMode(l, m); }
  }

  lemma RowEnds(l: Long, m: Machine)
    requires Satisfies(l, m)
    ensures EndsIn(l, m.device.AdvanceT(4 * l.machine.cycles))
  {
    hide Packed, Zero, Side.Decode, SerialOf, PlainOf, MachineRow.Carries, MachineRow.ModeIdentities,
         MachineRow.KeptIdentities, QuietIdentities, LongTimerRow.DividerIdentity, CursorIdentities, ScheduleIdentities,
         StoppedIdentities, UntilTimerIdentities, LongVBlankIdentities, LongSerialIdentities, NoTransferIdentities,
         LongDmaIdentity, Device.Pending, DmaQuiet, Ppu.Enabled, Quiet.BooleanIdentitiesHold,
         LongRow.BooleanIdentitiesHold, LongRow.Before, LongRow.After, DmaColumns.BooleanIdentitiesHold,
         MachineRow.MachineColumns.BooleanIdentitiesHold, PendingInterrupt, LongSkip, Ticks, Requested, PpuTicks,
         VBlankRaised, StatRaised, Serial.Advance, Serial.Completes;
    Starts(l, m);
    SkipTaken(l, m);
    QuietPart(l.quiet);
    TimerPart(l.timer, l.machine.untilTimer == 1);
    RequestColumns(l, m);
  }

  lemma RequestColumns(l: Long, m: Machine)
    requires l.Shape() && l.Shares() && MachineRow.Carries(l.machine, m)
    ensures l.quiet.beforeIf[0] == AsBit(m.device.request.vblank) && l.quiet.beforeIf[1] == AsBit(m.device.request.stat)
    ensures l.quiet.beforeIf[2] == AsBit(m.device.request.timer)
    ensures l.quiet.beforeIf[3] == AsBit(m.device.request.serial)
    ensures l.quiet.beforeIf[4] == AsBit(m.device.request.joypad)
  {
    var q := m.device.request;
    assert MachineRow.Line(q, 0) == q.vblank && MachineRow.Line(q, 1) == q.stat && MachineRow.Line(q, 2) == q.timer;
    assert MachineRow.Line(q, 3) == q.serial && MachineRow.Line(q, 4) == q.joypad;
  }

  /** So a satisfying long row is the idle-only HALT run from its machine: CPU, clock, mapper, memory and devices. */
  lemma LongRowIsIdleOnly(l: Long, m: Machine)
    requires Satisfies(l, m) && m.Valid() && m.clock + l.machine.cycles < 0x1_0000_0000_0000_0000
    ensures
      var n := IdleOnly(m, l.machine.cycles);
      && n.Ok? && n.value == m.(clock := m.clock + l.machine.cycles, device := n.value.device)
      && EndsIn(l, n.value.device) && KeepsCpu(l, n.value.cpu) && FirstPending(m.device, l.machine.cycles)
  {
    hide Satisfies, LongSkip, EndsIn, KeepsCpu, Device.AdvanceT, IdleOnly, QuietLong, FirstPending, Device.Valid,
         Classify;
    var c := l.machine.cycles;
    LongSkipRowExact(l, m);
    SkipIsIdleOnly(m, c);
    ValidSerial(m.device);
    QuietLongIsSingleSteps(m.device, c);
  }
}
