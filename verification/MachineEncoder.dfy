/** Honest machine rows: the encoder's row for every native machine event, and exactly when the relation accepts it. */
module MachineEncoder {

  import opened Wrappers
  import opened Modulus
  import opened Field
  import opened Gadgets
  import opened Timer
  import opened Devices
  import opened HaltSkips
  import opened Bus
  import opened Steps
  import opened Encoding
  import opened RowEncoder
  import opened MachineRow

  datatype Mode = Idling | ToVBlankLine | Waking | Dispatching(line: nat) | Copying | ToSerial | ToTimer

  /** The mode of the native step from `m`. */
  predicate Takes(m: Machine, mode: Mode) {
    match mode
    case Copying => m.device.dma.owed != 0
    case Dispatching(k) => m.device.dma.owed == 0 && k < 5 && Classify(m) == Ok(Some(Dispatch(Nth(k))))
    case Waking => m.device.dma.owed == 0 && Classify(m) == Ok(Some(Wake))
    case Idling => m.device.dma.owed == 0 && Classify(m) == Ok(Some(Idle))
    case ToVBlankLine => Skips(m) && UntilVBlank(m.device).Some?
    case ToSerial => Skips(m) && UntilVBlank(m.device).None? && UntilSerial(m.device).Some?
    case ToTimer => Skips(m) && UntilVBlank(m.device).None? && UntilSerial(m.device).None?
  }

  predicate Skips(m: Machine) {
    m.device.dma.owed == 0 && Classify(m).Ok? && Classify(m).value.Some? && Classify(m).value.value.Skip?
  }

  /** M-cycles of that step. */
  function Length(m: Machine, mode: Mode): nat {
    match mode
    case Dispatching(_) => 5
    case Idling => HaltIdle(m.device)
    case Waking | Copying => 0
    case _ => if LongSkip(m.device).Some? then LongSkip(m.device).value else 0
  }

  predicate Clear(d: Device, k: nat)
    requires k < 5
  {
    forall j: nat :: j <= k ==> !Waiting(d, j)
  }

  function ClearColumns(d: Device): (s: seq<int>)
    ensures |s| == 5 && Bits(s)
  {
    seq(5, k requires 0 <= k < 5 => AsBit(Clear(d, k)))
  }

  function SourceColumns(mode: Mode): (s: seq<int>)
    ensures |s| == 5 && Bits(s)
  {
    seq(5, k requires 0 <= k < 5 => AsBit(mode == Dispatching(k)))
  }

  function SlotsOf(m: Machine): Slots {
    var high, low := (m.cpu.sp - 1) % 0x10000, (m.cpu.sp - 2) % 0x10000;
    Slots(high, m.cpu.pc / 256, AsBit(PlainMemory(m, high)), low, m.cpu.pc % 256, AsBit(PlainMemory(m, low)), [0, 0, 0])
  }

  const NoSlots: Slots := Slots(0, 0, 0, 0, 0, 0, [0, 0, 0])

  /** `append_machine_row` with the boundary and bus columns of the step; the slots of a DMA byte are not this
      relation's. */
  function MachineRowOf(m: Machine, mode: Mode): MachineColumns {
    var dispatch := mode.Dispatching?;
    MachineColumns(
      AsBit(mode.Idling?), AsBit(mode.ToVBlankLine?), AsBit(mode.Waking?), AsBit(dispatch), AsBit(mode.Copying?),
      AsBit(mode.ToSerial?), AsBit(mode.ToTimer?),
      RequestBits(m.device.request), RequestBits(m.device.enable), BitsOf(m.cpu.pc, 16), BitsOf(m.cpu.sp, 16),
      SourceColumns(mode), ClearColumns(m.device), AsBit(dispatch && m.cpu.sp < 2), AsBit(dispatch && m.cpu.sp == 0),
      RunCode(m.cpu.run), if dispatch || mode.Waking? then 0 else RunCode(m.cpu.run),
      ImeCode(m.cpu.ime), if dispatch then 0 else ImeCode(m.cpu.ime),
      m.cpu.pc, if dispatch && mode.line < 5 then Nth(mode.line).Vector() else m.cpu.pc,
      m.cpu.sp, if dispatch then (m.cpu.sp - 2) % 0x10000 else m.cpu.sp,
      Length(m, mode), if dispatch then SlotsOf(m) else NoSlots, KeptOf(m, mode, Zeros(8), Zeros(8)))
  }

  /** Registers and flow counters are carried over; a dispatch and a DMA byte use two slots. */
  function KeptOf(m: Machine, mode: Mode, registers: seq<int>, flow: seq<int>): Kept {
    var two := AsBit(mode.Dispatching? || mode.Copying?);
    var short := if mode.Dispatching? || mode.Idling? then Length(m, mode) else 0;
    Kept(registers, registers, flow, flow, [two, two, 0, 0, 0], ShortColumns(short))
  }

  function ShortColumns(c: nat): (s: seq<int>)
    ensures |s| == 6 && Bits(s)
  {
    [AsBit(0 < c), AsBit(1 < c), AsBit(2 < c), AsBit(3 < c), AsBit(4 < c), AsBit(5 < c)]
  }

  lemma LengthFits(m: Machine, mode: Mode)
    requires m.device.Valid()
    ensures Length(m, mode) <= 0x2_0000
  {
    hide HaltIdle, TimerState.Enabled, TimerState.DetectorInput;
    if UntilTimer(m.device).Some? { TicksBound(m.device.timer); }
  }

  lemma RowShape(m: Machine, mode: Mode)
    requires m.cpu.Valid() && m.device.Valid()
    ensures MachineRowOf(m, mode).Shape() && MachineRowOf(m, mode).Boolean()
  {
    hide BitsOf, Bits, RequestBits, SourceColumns, ClearColumns, Length, Device.Valid, PlainMemory;
    LengthFits(m, mode);
    var r := MachineRowOf(m, mode);
    FlagsAreBits(r);
  }

  lemma FlagsAreBits(r: MachineColumns)
    requires Bit(r.idle) && Bit(r.untilVBlank) && Bit(r.wake) && Bit(r.interrupt) && Bit(r.dmaByte)
    requires Bit(r.untilSerial)
    requires Bit(r.untilTimer) && Bit(r.stackWrap) && Bit(r.firstWrap)
    ensures Bits(r.Flags())
  {
  }

  lemma LineColumn(l: Lines, k: nat)
    requires k < 5
    ensures RequestBits(l)[k] == AsBit(Line(l, k))
  {
  }

  lemma RowCarries(m: Machine, mode: Mode)
    requires m.cpu.Valid() && m.device.Valid()
    ensures Carries(MachineRowOf(m, mode), m)
  {
    hide BitsOf, SourceColumns, ClearColumns, Length, Device.Valid, PlainMemory, RequestBits, Line;
    RowShape(m, mode);
    forall k: nat | k < 5
      ensures RequestBits(m.device.request)[k] == AsBit(Line(m.device.request, k))
      ensures RequestBits(m.device.enable)[k] == AsBit(Line(m.device.enable, k))
    {
      LineColumn(m.device.request, k);
      LineColumn(m.device.enable, k);
    }
  }

  // ----- priority -----

  lemma PendingIsFirst(d: Device, k: nat)
    requires k < 5 && PendingInterrupt(d) == Some(Nth(k))
    ensures First(d, k)
  {
    hide First;
    if j: nat :| j < 5 && First(d, j) {
      FirstIsPending(d, j);
      assert j == k;
    } else {
      SomeFirst(d);
    }
  }

  lemma SomeFirst(d: Device)
    requires PendingInterrupt(d).Some?
    ensures exists j: nat :: j < 5 && First(d, j)
  {
    NoneIsPending(d);
    var k: nat :| k < 5 && Waiting(d, k);
    LeastWaiting(d, k);
  }

  lemma {:induction false} LeastWaiting(d: Device, k: nat)
    requires k < 5 && Waiting(d, k)
    ensures exists j: nat :: j < 5 && First(d, j)
    decreases k
  {
    if j: nat :| j < k && Waiting(d, j) { LeastWaiting(d, j); } else { assert First(d, k); }
  }

  lemma SourceHolds(interrupt: bool, pending: bool, higher: bool, source: bool)
    requires source == (interrupt && pending && higher)
    ensures Zero(AsBit(source) - AsBit(interrupt) * AsBit(pending) * AsBit(higher))
  {
    ZeroHolds(0);
  }

  lemma ClearHolds(next: bool, higher: bool, pending: bool)
    requires next == (higher && !pending)
    ensures Zero(AsBit(next) - AsBit(higher) * (1 - AsBit(pending)))
  {
    ZeroHolds(0);
  }

  /** Every line above `k` is clear. */
  predicate Above(d: Device, k: nat)
    requires k < 5
  {
    k == 0 || Clear(d, k - 1)
  }

  lemma AboveIs(d: Device, k: nat)
    requires k < 5
    ensures Clear(d, k) <==> Above(d, k) && !Waiting(d, k)
    ensures First(d, k) <==> Above(d, k) && Waiting(d, k)
  {
    if Above(d, k) {
      assert forall j: nat :: j < k ==> !Waiting(d, j);
    }
  }

  lemma PriorityAccepted(m: Machine, mode: Mode, k: nat)
    requires m.cpu.Valid() && m.device.Valid() && Takes(m, mode) && k < 5
    ensures MachineRowOf(m, mode).Shape() && PriorityIdentities(MachineRowOf(m, mode), k)
  {
    hide BitsOf, Length, Device.Valid, PlainMemory, RequestBits, Zero, Clear, First, Waiting, SlotsOf, Carries;
    var r, d := MachineRowOf(m, mode), m.device;
    RowShape(m, mode);
    RowCarries(m, mode);
    PendingBit(r, m, k);
    AboveIs(d, k);
    ClearHolds(Clear(d, k), Above(d, k), Waiting(d, k));
    SourceIs(m, mode, k);
    SourceHolds(mode.Dispatching?, Waiting(d, k), Above(d, k), mode == Dispatching(k));
  }

  lemma SourceIs(m: Machine, mode: Mode, k: nat)
    requires Takes(m, mode) && k < 5
    ensures mode == Dispatching(k) <==> mode.Dispatching? && First(m.device, k)
  {
    hide First, PendingInterrupt, LongSkip, UntilVBlank, UntilSerial;
    if mode.Dispatching? {
      PendingIsFirst(m.device, mode.line);
      OnlyFirst(m.device, k, mode.line);
    }
  }

  // ----- modes -----

  lemma ModeFacts(m: Machine, mode: Mode)
    requires Takes(m, mode)
    ensures mode.Dispatching? ==> m.cpu.run != Stopped && m.cpu.ime == Enabled
    ensures mode.Waking? ==> m.cpu.run == Halted && m.cpu.ime != Enabled && !Clear(m.device, 4)
    ensures mode in {Idling, ToVBlankLine, ToSerial, ToTimer} ==> m.cpu.run == Halted && Clear(m.device, 4)
    ensures mode.ToVBlankLine? ==> m.device.enable.vblank && !m.device.enable.joypad
    ensures mode.ToSerial? ==> m.device.enable.serial
    ensures mode.ToTimer? ==> m.device.enable.timer
  {
    hide PendingInterrupt, TimerState.TCyclesUntilInterrupt, Waiting, TimerQuiet, DmaQuiet, Ppu.Enabled, ToVBlank,
         Device.Pending;
    NoneIsPending(m.device);
    LastClear(m.device);
  }

  lemma LastClear(d: Device)
    ensures Clear(d, 4) <==> forall k: nat :: k < 5 ==> !Waiting(d, k)
  {
  }

  lemma SourcesSum(mode: Mode)
    requires mode.Dispatching? ==> mode.line < 5
    ensures var s := SourceColumns(mode); s[0] + s[1] + s[2] + s[3] + s[4] == AsBit(mode.Dispatching?)
    ensures mode.Dispatching? ==> VectorColumn(SourceColumns(mode)) == Nth(mode.line).Vector()
  {
  }

  lemma IdleHolds(idle: int, c: int)
    requires Bit(idle) && (idle == 1 ==> 1 <= c <= 6)
    ensures Zero(idle * (c - 1) * (c - 2) * (c - 3) * (c - 4) * (c - 5) * (c - 6))
  {
    ZeroHolds(0);
    if idle == 1 { SixRoots(c); } else { NothingTimes(c); }
  }

  lemma NothingTimes(c: int)
    ensures 0 * (c - 1) * (c - 2) * (c - 3) * (c - 4) * (c - 5) * (c - 6) == 0
  {
    assert 0 * (c - 1) == 0;
  }

  lemma SkipsAccepted(m: Machine, mode: Mode)
    requires m.cpu.Valid() && m.device.Valid() && Takes(m, mode)
    ensures MachineRowOf(m, mode).Shape() && SkipIdentities(MachineRowOf(m, mode))
  {
    hide BitsOf, Length, Device.Valid, PlainMemory, Clear, SlotsOf, Takes, SourceColumns, ClearColumns;
    var r := MachineRowOf(m, mode);
    RowShape(m, mode);
    ModeFacts(m, mode);
    IdleBound(m, mode);
    IdleHolds(r.idle, r.cycles);
    ZeroHolds(0);
  }

  lemma IdleBound(m: Machine, mode: Mode)
    ensures mode.Idling? ==> 1 <= Length(m, mode) <= 6
    ensures mode.Waking? || mode.Copying? ==> Length(m, mode) == 0
    ensures mode.Dispatching? ==> Length(m, mode) == 5
  {
  }

  lemma RunHolds(interrupt: int, run: RunState)
    requires Bit(interrupt) && (interrupt == 1 ==> run != Stopped)
    ensures Zero(interrupt * RunCode(run) * (RunCode(run) - 1) * (RunCode(run) - 3))
  {
    ZeroHolds(0);
  }

  lemma ImeHolds(wake: int, ime: Ime)
    requires Bit(wake) && (wake == 1 ==> ime != Enabled)
    ensures Zero(wake * ImeCode(ime) * (ImeCode(ime) - 1))
  {
    ZeroHolds(0);
  }

  lemma ModesAccepted(m: Machine, mode: Mode)
    requires m.cpu.Valid() && m.device.Valid() && Takes(m, mode)
    ensures MachineRowOf(m, mode).Shape() && MachineRow.ModeIdentities(MachineRowOf(m, mode))
  {
    hide BitsOf, Length, Device.Valid, PlainMemory, Clear, SlotsOf, Takes, SourceColumns, RequestBits,
         PriorityIdentities, SkipIdentities;
    var r := MachineRowOf(m, mode);
    RowShape(m, mode);
    ModeFacts(m, mode);
    SkipsAccepted(m, mode);
    IdleBound(m, mode);
    DispatchLine(m, mode);
    SourcesSum(mode);
    forall k: nat | k < 5 ensures PriorityIdentities(r, k) { PriorityAccepted(m, mode, k); }
    RunHolds(r.interrupt, m.cpu.run);
    ImeHolds(r.wake, m.cpu.ime);
    ZeroHolds(0);
  }

  lemma DispatchLine(m: Machine, mode: Mode)
    requires Takes(m, mode)
    ensures mode.Dispatching? ==> mode.line < 5
  {
    hide Classify, UntilVBlank, UntilSerial;
  }

  // ----- dispatch -----

  lemma StackHolds(interrupt: int, sp: int, drop: int, wrap: int)
    requires Bit(interrupt) && 0 <= sp < 0x10000 && 1 <= drop <= 2 && (interrupt == 1 ==> wrap == AsBit(sp < drop))
    ensures Zero(interrupt * ((sp - drop) % 0x10000 - sp + drop - 65536 * wrap))
  {
    ZeroHolds(0);
    if interrupt == 1 { DivisionUnique(sp - drop, 0x10000, -wrap, sp - drop + 65536 * wrap); }
  }

  lemma GatedEqual(interrupt: int, x: int, y: int)
    requires Bit(interrupt) && (interrupt == 1 ==> x == y)
    ensures Zero(interrupt * (x - y))
  {
    ZeroHolds(0);
  }

  lemma NotDispatching(r: MachineColumns)
    requires r.Shape() && r.interrupt == 0
    ensures DispatchIdentities(r)
  {
    ZeroHolds(0);
  }

  lemma DispatchAccepted(m: Machine, mode: Mode)
    requires m.cpu.Valid() && m.device.Valid() && Takes(m, mode)
    ensures MachineRowOf(m, mode).Shape() && DispatchIdentities(MachineRowOf(m, mode))
    ensures InputIdentities(MachineRowOf(m, mode))
  {
    hide BitsOf, Length, Device.Valid, PlainMemory, SourceColumns, ClearColumns, Takes, RequestBits, Packed, Zero,
         VectorColumn, Pow2, DispatchIdentities;
    var r := MachineRowOf(m, mode);
    RowShape(m, mode);
    PowerValues();
    BitsFit(m.cpu.pc, 16, 65536);
    BitsFit(m.cpu.sp, 16, 65536);
    ZeroHolds(r.beforePc - Packed(r.pcBits));
    ZeroHolds(r.beforeSp - Packed(r.spBits));
    if mode.Dispatching? { DispatchHolds(m, mode); } else { NotDispatching(r); }
  }

  lemma DispatchHolds(m: Machine, mode: Mode)
    requires m.cpu.Valid() && m.device.Valid() && Takes(m, mode) && mode.Dispatching?
    ensures MachineRowOf(m, mode).Shape() && DispatchIdentities(MachineRowOf(m, mode))
  {
    hide BitsOf, Length, Device.Valid, PlainMemory, SourceColumns, ClearColumns, Takes, RequestBits, Packed, Zero,
         VectorColumn, Pow2;
    var r := MachineRowOf(m, mode);
    RowShape(m, mode);
    PowerValues();
    BitsFit(m.cpu.pc, 16, 65536);
    ReturnBytes(m.cpu.pc, r.pcBits);
    DispatchLine(m, mode);
    SourcesSum(mode);
    GatedEqual(r.interrupt, r.afterPc, VectorColumn(r.sources));
    StackHolds(r.interrupt, m.cpu.sp, 2, r.stackWrap);
    StackHolds(r.interrupt, m.cpu.sp, 1, r.firstWrap);
    GatedEqual(r.interrupt, r.slots.firstValue, Packed(r.pcBits[8..16]));
    GatedEqual(r.interrupt, r.slots.secondValue, Packed(r.pcBits[..8]));
  }

  lemma KindsAccepted(m: Machine, mode: Mode)
    requires m.cpu.Valid() && m.device.Valid()
    ensures
      var r := MachineRowOf(m, mode);
      r.Shape()
      && (KindIdentities(r) <==>
          (mode.Dispatching? ==> PlainMemory(m, (m.cpu.sp - 1) % 0x10000) && PlainMemory(m, (m.cpu.sp - 2) % 0x10000)))
  {
    hide BitsOf, Length, Device.Valid, PlainMemory, SourceColumns, ClearColumns, RequestBits, Zero;
    var r := MachineRowOf(m, mode);
    RowShape(m, mode);
    ZeroHolds(0);
    if mode.Dispatching? { KindsExactly(r, m); }
  }

  // ----- registers, bus and short cycles -----

  predicate Scalars(s: seq<int>) { |s| == 8 && forall i :: 0 <= i < 8 ==> Felt(s[i]) }

  /** The row of a CPU with these registers and flow counters. */
  function RowWith(m: Machine, mode: Mode, registers: seq<int>, flow: seq<int>): MachineColumns {
    MachineRowOf(m, mode).(kept := KeptOf(m, mode, registers, flow))
  }

  lemma GateHolds(gate: int, x: int, y: int)
    requires gate == 0 || x == y
    ensures Zero(gate * (x - y))
  {
    ZeroHolds(0);
  }

  lemma FreeHolds(gate: int, x: int)
    requires gate == 0 || x == 0
    ensures Zero(gate * x)
  {
    ZeroHolds(0);
  }

  lemma ShortHolds(c: nat)
    requires c <= 6
    ensures Sum(ShortColumns(c)) == c
    ensures forall i :: 0 <= i < 5 ==> Zero((1 - ShortColumns(c)[i]) * ShortColumns(c)[i + 1])
  {
    var s := ShortColumns(c);
    forall i | 0 <= i < 5 ensures Zero((1 - s[i]) * s[i + 1]) {
      assert s[i] == AsBit(i < c) && s[i + 1] == AsBit(i + 1 < c);
      ZeroHolds(0);
    }
  }

  lemma ShortColumnsHold(m: Machine, mode: Mode, registers: seq<int>, flow: seq<int>)
    requires Takes(m, mode) && m.cpu.Valid() && m.device.Valid()
    ensures
      var r := RowWith(m, mode, registers, flow);
      && (forall i :: 0 <= i < 5 ==> Zero((1 - r.kept.short[i]) * r.kept.short[i + 1]))
      && Zero(Sum(r.kept.short) - (r.idle + r.interrupt) * r.cycles)
  {
    hide BitsOf, Length, Device.Valid, PlainMemory, SlotsOf, Takes, SourceColumns, ClearColumns, ShortColumns, Sum;
    IdleBound(m, mode);
    ShortHolds(if mode.Dispatching? || mode.Idling? then Length(m, mode) else 0);
    ZeroHolds(0);
  }

  lemma KeptHolds(r: MachineColumns)
    requires r.Shape() && r.kept.registersAfter == r.kept.registers && r.kept.flowAfter == r.kept.flow
    requires r.interrupt == 1 ==> r.wake == 0 && r.Sleeping() + r.dmaByte == 0
    requires r.interrupt == 0 ==> r.afterPc == r.beforePc && r.afterSp == r.beforeSp && r.afterIme == r.beforeIme
    requires r.interrupt == 0 && r.wake == 0 ==> r.afterRun == r.beforeRun
    requires r.wake == 1 ==> r.Sleeping() + r.dmaByte == 0
    requires Bit(r.interrupt) && Bit(r.wake)
    requires r.Sleeping() + r.wake == 0 || r.kept.active == [0, 0, 0, 0, 0]
    requires forall i :: 0 <= i < 5 ==> Zero((1 - r.kept.short[i]) * r.kept.short[i + 1])
    requires Zero(Sum(r.kept.short) - (r.idle + r.interrupt) * r.cycles)
    ensures KeptIdentities(r)
  {
    hide Zero, Sum;
    var k, passive := r.kept, r.Sleeping() + r.dmaByte;
    forall i | 0 <= i < 8
      ensures Zero(passive * (k.registersAfter[i] - k.registers[i]))
      ensures Zero(r.wake * (k.registersAfter[i] - k.registers[i]))
      ensures Zero(r.interrupt * (k.registersAfter[i] - k.registers[i])) && Zero(k.flowAfter[i] - k.flow[i])
    {
      GateHolds(passive, k.registersAfter[i], k.registers[i]);
      GateHolds(r.wake, k.registersAfter[i], k.registers[i]);
      GateHolds(r.interrupt, k.registersAfter[i], k.registers[i]);
      ZeroHolds(k.flowAfter[i] - k.flow[i]);
    }
    GateHolds(passive, r.afterPc, r.beforePc);
    GateHolds(passive, r.afterSp, r.beforeSp);
    GateHolds(passive, r.afterIme, r.beforeIme);
    GateHolds(passive, r.afterRun, r.beforeRun);
    GateHolds(r.wake, r.afterPc, r.beforePc);
    GateHolds(r.wake, r.afterSp, r.beforeSp);
    GateHolds(r.wake, r.afterIme, r.beforeIme);
    forall i | 0 <= i < 5 ensures Zero((r.Sleeping() + r.wake) * k.active[i]) {
      FreeHolds(r.Sleeping() + r.wake, k.active[i]);
    }
  }

  lemma KeptAccepted(m: Machine, mode: Mode, registers: seq<int>, flow: seq<int>)
    requires m.cpu.Valid() && m.device.Valid() && Takes(m, mode) && Scalars(registers) && Scalars(flow)
    ensures RowWith(m, mode, registers, flow).Shape() && RowWith(m, mode, registers, flow).Boolean()
    ensures KeptIdentities(RowWith(m, mode, registers, flow))
  {
    hide BitsOf, Length, Device.Valid, PlainMemory, SlotsOf, Takes, SourceColumns, ClearColumns, Bits, RequestBits, Sum,
         KeptIdentities, ShortColumns, Zero;
    RowShape(m, mode);
    ShortColumnsHold(m, mode, registers, flow);
    var r := RowWith(m, mode, registers, flow);
    assert r.Flags() == MachineRowOf(m, mode).Flags();
    KeptHolds(r);
  }

  /** No other identity sees the kept columns. */
  lemma KeptApart(r: MachineColumns, k: Kept)
    requires r.Shape() && r.(kept := k).Shape()
    ensures MachineRow.ModeIdentities(r.(kept := k)) <==> MachineRow.ModeIdentities(r)
    ensures InputIdentities(r.(kept := k)) <==> InputIdentities(r)
    ensures DispatchIdentities(r.(kept := k)) <==> DispatchIdentities(r)
    ensures KindIdentities(r.(kept := k)) <==> KindIdentities(r)
  {
    hide Zero, Packed, VectorColumn, Kept.Shape;
    assert forall j: nat :: j < 5 ==> (PriorityIdentities(r.(kept := k), j) <==> PriorityIdentities(r, j));
  }

  lemma CarriesApart(r: MachineColumns, k: Kept, m: Machine)
    requires Carries(r, m) && r.(kept := k).Shape()
    ensures Carries(r.(kept := k), m)
  {
    hide Line;
  }

  /**
    * Completeness of machine rows: for every machine event the native step takes, and whatever the CPU's registers and
    * flow counters are, the encoder's row carries the state and meets every identity but those on slot kinds always,
    * and those exactly when a dispatch pushes to plain memory.
    */
  lemma MachineRowAcceptedExactly(m: Machine, mode: Mode, registers: seq<int>, flow: seq<int>)
    requires m.cpu.Valid() && m.device.Valid() && Takes(m, mode) && Scalars(registers) && Scalars(flow)
    ensures
      var r := RowWith(m, mode, registers, flow);
      && Carries(r, m) && r.BooleanIdentitiesHold()
      && MachineRow.ModeIdentities(r) && InputIdentities(r) && DispatchIdentities(r) && KeptIdentities(r)
      && (KindIdentities(r) <==>
          (mode.Dispatching? ==> PlainMemory(m, (m.cpu.sp - 1) % 0x10000) && PlainMemory(m, (m.cpu.sp - 2) % 0x10000)))
  {
    hide MachineRowOf, Device.Valid, PlainMemory, Takes, Carries, MachineColumns.Boolean, KeptIdentities,
         MachineColumns.BooleanIdentitiesHold, MachineRow.ModeIdentities, InputIdentities, DispatchIdentities,
         KindIdentities, MachineColumns.Shape;
    RowShape(m, mode);
    RowCarries(m, mode);
    ModesAccepted(m, mode);
    DispatchAccepted(m, mode);
    KindsAccepted(m, mode);
    KeptAccepted(m, mode, registers, flow);
    MachineBits(RowWith(m, mode, registers, flow));
    KeptApart(MachineRowOf(m, mode), KeptOf(m, mode, registers, flow));
    CarriesApart(MachineRowOf(m, mode), KeptOf(m, mode, registers, flow), m);
  }
}
