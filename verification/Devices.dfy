/** The DMG device snapshot: PPU position and STAT line, serial countdown, interrupt lines, OAM DMA cursor. */
module Devices {

  import opened Wrappers
  import opened Timer

  // ----- interrupt lines -----

  /** The five stored bits of IF or IE, in priority order. */
  datatype Lines = Lines(vblank: bool, stat: bool, timer: bool, serial: bool, joypad: bool) {

    function Or(that: Lines): Lines {
      Lines(vblank || that.vblank, stat || that.stat, timer || that.timer, serial || that.serial, joypad || that.joypad)
    }

    predicate Meets(that: Lines) {
      (vblank && that.vblank) || (stat && that.stat) || (timer && that.timer) || (serial && that.serial)
      || (joypad && that.joypad)
    }

    function Byte(): int {
      (if vblank then 1 else 0) + (if stat then 2 else 0) + (if timer then 4 else 0)
      + (if serial then 8 else 0) + (if joypad then 16 else 0)
    }
  }

  const NoLines := Lines(false, false, false, false, false)

  /** Stores the low five bits of a byte. */
  function FromByte(v: int): Lines {
    Lines(v % 2 == 1, v / 2 % 2 == 1, v / 4 % 2 == 1, v / 8 % 2 == 1, v / 16 % 2 == 1)
  }

  datatype Interrupt = VBlank | LcdStat | TimerOverflow | SerialDone | Joypad {
    function Vector(): int {
      match this
      case VBlank => 0x40
      case LcdStat => 0x48
      case TimerOverflow => 0x50
      case SerialDone => 0x58
      case Joypad => 0x60
    }
  }

  // ----- picture processing unit -----

  const LineTCycles := 456
  const FrameTCycles := 70224
  const VBlankTCycle := 65664

  datatype Ppu = Ppu(lcdControl: int, statControl: int, lineCompare: int, line: int, dot: int) {

    predicate Enabled() { lcdControl >= 128 }

    predicate Valid() {
      && 0 <= lcdControl < 256 && 0 <= lineCompare < 256
      && 0 <= statControl < 128 && statControl % 8 == 0
      && 0 <= line <= 153 && 0 <= dot <= 455
      && (!Enabled() ==> line == 0 && dot == 0)
    }

    function Mode(): int {
      if !Enabled() then 0
      else if line >= 144 then 1
      else if dot < 80 then 2
      else if dot < 252 then 3
      else 0
    }

    /** The composite STAT line, high while any selected source is active. */
    predicate Signal() {
      Enabled()
      && (|| (statControl / 8 % 2 == 1 && Mode() == 0)
          || (statControl / 16 % 2 == 1 && Mode() == 1)
          || (statControl / 32 % 2 == 1 && Mode() == 2)
          || (statControl / 64 % 2 == 1 && line == lineCompare))
    }

    function Tick(): Ppu {
      if !Enabled() then this.(line := 0, dot := 0)
      else if dot + 1 == LineTCycles then this.(dot := 0, line := if line == 153 then 0 else line + 1)
      else this.(dot := dot + 1)
    }

    /** This T-cycle enters line 144. */
    predicate EntersVBlank() { Enabled() && dot + 1 == LineTCycles && line == 143 }

    /** The STAT line rises in this T-cycle. */
    predicate StatRises() { !Signal() && Tick().Signal() }

    function Position(): int { line * LineTCycles + dot }
  }

  function PpuTicks(p: Ppu, n: nat): (q: Ppu)
    ensures p.Valid() ==> q.Valid()
    ensures q.lcdControl == p.lcdControl && q.statControl == p.statControl && q.lineCompare == p.lineCompare
  {
    if n == 0 then p else PpuTicks(p, n - 1).Tick()
  }

  predicate VBlankRaised(p: Ppu, n: nat) {
    n > 0 && (VBlankRaised(p, n - 1) || PpuTicks(p, n - 1).EntersVBlank())
  }

  predicate StatRaised(p: Ppu, n: nat) {
    n > 0 && (StatRaised(p, n - 1) || PpuTicks(p, n - 1).StatRises())
  }

  lemma {:induction false} PpuCompose(p: Ppu, a: nat, b: nat)
    ensures PpuTicks(p, a + b) == PpuTicks(PpuTicks(p, a), b)
    ensures VBlankRaised(p, a + b) <==> VBlankRaised(p, a) || VBlankRaised(PpuTicks(p, a), b)
    ensures StatRaised(p, a + b) <==> StatRaised(p, a) || StatRaised(PpuTicks(p, a), b)
  {
    if b > 0 { PpuCompose(p, a, b - 1); }
  }

  // ----- serial port -----

  datatype Serial = Serial(data: int, control: int, remaining: int) {

    predicate Valid() {
      && 0 <= data < 256 && 0 <= control < 256 && 0 <= remaining <= 4096
      && (remaining != 0 ==> control >= 128 && control % 2 == 1)
    }

    predicate Completes(ticks: nat) { remaining != 0 && ticks >= remaining }

    function Advance(ticks: nat): Serial {
      if remaining == 0 then this
      else if ticks >= remaining then Serial(0xff, control % 128, 0)
      else this.(remaining := remaining - ticks)
    }
  }

  lemma SerialCompose(s: Serial, a: nat, b: nat)
    requires s.remaining >= 0
    ensures s.Advance(a + b) == s.Advance(a).Advance(b)
    ensures s.Completes(a + b) <==> s.Completes(a) || s.Advance(a).Completes(b)
  {
  }

  // ----- OAM DMA cursor -----

  datatype Dma = Dma(sourceHigh: int, index: int, active: bool, owed: int) {

    predicate Valid() {
      0 <= sourceHigh < 256 && 0 <= index <= 160 && 0 <= owed <= 6 && index + owed <= 160
      && (active ==> index < 160) && (owed > 0 ==> active)
    }

    /** Bytes whose copies run beside an already timed step. */
    function Schedule(mCycles: int, activeAtStart: bool): Dma {
      if !activeAtStart then this.(owed := 0)
      else
        var remaining := if index > 160 then 0 else 160 - index;
        this.(owed := if mCycles < remaining then mCycles else remaining)
    }

    function Complete(): Dma {
      var paid := this.(owed := if owed == 0 then 0 else owed - 1);
      if index == 159 then paid.(index := 160, active := false)
      else paid.(index := if index == 255 then 255 else index + 1)
    }

    function SourceAddress(): int { sourceHigh * 256 + index }
    function DestinationAddress(): int { 0xfe00 + index }
  }

  // ----- the device snapshot -----

  /** Registers that only store what is written. */
  datatype Plain = Plain(scrollY: int, scrollX: int, bgPalette: int, objPalette0: int, objPalette1: int, windowY: int,
                         windowX: int)
  {
    predicate Valid() {
      && 0 <= scrollY < 256 && 0 <= scrollX < 256 && 0 <= bgPalette < 256 && 0 <= objPalette0 < 256
      && 0 <= objPalette1 < 256 && 0 <= windowY < 256 && 0 <= windowX < 256
    }
  }

  datatype Device = Device(
    request: Lines, enable: Lines, serial: Serial, timer: TimerState, ppu: Ppu, plain: Plain,
    joypadSelect: int, joypadButtons: int, dma: Dma)
  {
    predicate Valid() {
      && serial.Valid() && timer.Valid() && ppu.Valid() && dma.Valid() && plain.Valid()
      && 0 <= joypadSelect < 64 && joypadSelect % 16 == 0 && 0 <= joypadButtons < 256
    }

    predicate Pending() { request.Meets(enable) }

    /** Every device moved by `t` T-cycles; the interrupt lines only accumulate. */
    function AdvanceT(t: nat): Device {
      this.(timer := Ticks(timer, t), serial := serial.Advance(t), ppu := PpuTicks(ppu, t),
            request := request.Or(Raised(t)))
    }

    function Raised(t: nat): Lines {
      Lines(VBlankRaised(ppu, t), StatRaised(ppu, t), Requested(timer, t), serial.Completes(t), false)
    }

    /** `advance_m_cycles`: the T-cycle count saturates at 255. */
    function AdvanceM(mCycles: nat): Device {
      AdvanceT(if 4 * mCycles > 255 then 255 else 4 * mCycles)
    }
  }

  /** Highest-priority requested and enabled interrupt. */
  function PendingInterrupt(d: Device): (r: Option<Interrupt>)
    ensures r.Some? <==> d.Pending()
  {
    if d.request.vblank && d.enable.vblank then Some(VBlank)
    else if d.request.stat && d.enable.stat then Some(LcdStat)
    else if d.request.timer && d.enable.timer then Some(TimerOverflow)
    else if d.request.serial && d.enable.serial then Some(SerialDone)
    else if d.request.joypad && d.enable.joypad then Some(Joypad)
    else None
  }

  /** Timer, serial and PPU moved one after the other make up the whole advance. */
  lemma AssembleAdvance(d: Device, t: nat, after: Device)
    requires after
             == d.(timer := Ticks(d.timer, t), serial := d.serial.Advance(t), ppu := PpuTicks(d.ppu, t),
                   request := after.request)
    requires after.request ==
      d.request.(timer := d.request.timer || Requested(d.timer, t), serial := d.request.serial || d.serial.Completes(t))
        .Or(Lines(VBlankRaised(d.ppu, t), StatRaised(d.ppu, t), false, false, false))
    ensures after == d.AdvanceT(t)
    ensures d.serial.remaining >= 0 ==> after.serial.remaining >= 0
  {
    hide Ticks, Requested, PpuTicks, VBlankRaised, StatRaised;
  }

  /** T-cycles compose: devices share nothing but interrupt bits that are only ever raised. */
  lemma AdvanceCompose(d: Device, a: nat, b: nat)
    requires d.serial.remaining >= 0
    ensures d.AdvanceT(a + b) == d.AdvanceT(a).AdvanceT(b)
  {
    TicksCompose(d.timer, a, b);
    SerialCompose(d.serial, a, b);
    PpuCompose(d.ppu, a, b);
  }

  lemma {:induction false} AdvanceValid(d: Device, t: nat)
    requires d.Valid()
    ensures d.AdvanceT(t).Valid()
  {
  }

  /** `m` single M-cycles. */
  function SingleSteps(d: Device, m: nat): Device
    decreases m
  {
    if m == 0 then d else SingleSteps(d, m - 1).AdvanceM(1)
  }

  /** `advance_quiet_long`: chunks of at most 63 M-cycles. */
  function QuietLong(d: Device, m: nat): Device
    decreases m
  {
    if m == 0 then d
    else
      var chunk := if m < 63 then m else 63;
      QuietLong(d.AdvanceM(chunk), m - chunk)
  }

  /** Up to 63 M-cycles the saturating product is the exact T-cycle count. */
  lemma ChunkExact(d: Device, m: nat)
    requires m <= 63
    ensures d.AdvanceM(m) == d.AdvanceT(4 * m)
    ensures d.AdvanceT(4 * m).serial.remaining <= d.serial.remaining || d.serial.remaining < 0
    ensures d.serial.remaining >= 0 ==> d.AdvanceT(4 * m).serial.remaining >= 0
  {
  }

  /** One more chunk after `t` T-cycles. */
  lemma ExtendBy(d: Device, t: nat, m: nat)
    requires d.serial.remaining >= 0 && m <= 63
    ensures d.AdvanceT(t).AdvanceM(m) == d.AdvanceT(t + 4 * m)
  {
    hide Device.AdvanceT, Device.AdvanceM;
    ChunkExact(d.AdvanceT(t), m);
    AdvanceCompose(d, t, 4 * m);
  }

  lemma AdvanceNothing(d: Device)
    requires d.serial.remaining >= 0
    ensures d.AdvanceT(0) == d
  {
  }

  lemma {:induction false} SingleStepsAdvance(d: Device, m: nat)
    requires d.serial.remaining >= 0
    ensures SingleSteps(d, m) == d.AdvanceT(4 * m)
  {
    hide Device.AdvanceT, Device.AdvanceM;
    if m == 0 {
      AdvanceNothing(d);
    } else {
      SingleStepsAdvance(d, m - 1);
      ExtendBy(d, 4 * (m - 1), 1);
    }
  }

  lemma {:induction false} QuietLongAdvance(d: Device, t: nat, m: nat)
    requires d.serial.remaining >= 0
    ensures QuietLong(d.AdvanceT(t), m) == d.AdvanceT(t + 4 * m)
    decreases m
  {
    hide Device.AdvanceT, Device.AdvanceM;
    if m > 0 {
      var chunk := if m < 63 then m else 63;
      ExtendBy(d, t, chunk);
      QuietLongAdvance(d, t + 4 * chunk, m - chunk);
    }
  }

  /** The chunked advance is the single-cycle advance repeated, for every length. */
  lemma QuietLongIsSingleSteps(d: Device, m: nat)
    requires d.serial.remaining >= 0
    ensures QuietLong(d, m) == SingleSteps(d, m) == d.AdvanceT(4 * m)
  {
    hide Device.AdvanceT, Device.AdvanceM;
    SingleStepsAdvance(d, m);
    AdvanceNothing(d);
    QuietLongAdvance(d, 0, m);
  }

  /** One call of `advance_m_cycles` is that many single M-cycles exactly up to 63: from 64 on the T-cycle count
      saturates. */
  lemma ChunkExactly(d: Device, m: nat)
    requires d.Valid() && m < 256
    ensures d.AdvanceM(m) == SingleSteps(d, m) <==> m <= 63
  {
    hide Ticks, Requested, PpuTicks, VBlankRaised, StatRaised, Serial.Advance, SingleSteps;
    SingleStepsAdvance(d, m);
    if m > 63 {
      DividerCounts(d.timer, 255);
      DividerCounts(d.timer, 4 * m);
      DividersDiffer(d.timer.rawDiv, 255, 4 * m);
    }
  }

  /** Fewer than 2^16 T-cycles apart the divider tells the two apart. */
  lemma DividersDiffer(x: int, a: int, b: int)
    requires a < b < a + 0x1_0000
    ensures (x + a) % 0x1_0000 != (x + b) % 0x1_0000
  {
    var q, r := (x + a) / 0x1_0000, (x + b) / 0x1_0000;
    assert x + a == 0x1_0000 * q + (x + a) % 0x1_0000 && x + b == 0x1_0000 * r + (x + b) % 0x1_0000;
  }

  // ----- PPU position and VBlank in closed form -----

  lemma {:induction false} PositionAdvances(p: Ppu, n: nat)
    requires p.Valid() && p.Enabled()
    ensures PpuTicks(p, n).Position() == (p.Position() + n) % FrameTCycles
  {
    if n > 0 {
      PositionAdvances(p, n - 1);
      ModStep(p.Position() + n - 1, FrameTCycles);
    }
  }

  lemma {:induction false} DisabledPpu(p: Ppu, n: nat)
    requires p.Valid() && !p.Enabled()
    ensures PpuTicks(p, n) == p && !VBlankRaised(p, n) && !StatRaised(p, n)
  {
    if n > 0 { DisabledPpu(p, n - 1); }
  }

  /** T-cycles until line 144 is next entered. */
  function ToVBlank(p: Ppu): int {
    if p.Position() < VBlankTCycle then VBlankTCycle - p.Position()
    else FrameTCycles - p.Position() + VBlankTCycle
  }

  lemma EntersAtPosition(p: Ppu)
    requires p.Valid() && p.Enabled()
    ensures p.EntersVBlank() <==> p.Position() == VBlankTCycle - 1
    ensures 0 <= p.Position() < FrameTCycles
  {
  }

  lemma FrameRemainder(s: int)
    requires 0 <= s < 2 * FrameTCycles
    ensures s % FrameTCycles == if s < FrameTCycles then s else s - FrameTCycles
  {
  }

  lemma {:induction false} VBlankExact(p: Ppu, n: nat)
    requires p.Valid() && p.Enabled()
    ensures VBlankRaised(p, n) <==> n >= ToVBlank(p)
  {
    hide Ppu.Tick, Ppu.EntersVBlank, Ppu.Signal;
    EntersAtPosition(p);
    if n > 0 {
      VBlankExact(p, n - 1);
      if n <= ToVBlank(p) {
        PositionAdvances(p, n - 1);
        EntersAtPosition(PpuTicks(p, n - 1));
        FrameRemainder(p.Position() + n - 1);
      }
    }
  }

  // ----- STAT in closed form -----

  /** Dot at which the mode, or the line, next changes. */
  function BoundaryDot(p: Ppu): int {
    if p.dot < 80 then 80 else if p.dot < 252 then 252 else LineTCycles
  }

  lemma {:induction false} WithinSegment(p: Ppu, n: nat)
    requires p.Valid() && p.Enabled() && p.dot + n < BoundaryDot(p)
    ensures PpuTicks(p, n) == p.(dot := p.dot + n)
    ensures PpuTicks(p, n).Signal() == p.Signal() && !StatRaised(p, n)
  {
    if n > 0 { WithinSegment(p, n - 1); }
    assert p.(dot := p.dot + n).Mode() == p.Mode();
  }

  /** The T-cycle that crosses a boundary decides the edge; the next boundary is at least 80 T-cycles on. */
  lemma CrossBoundary(p: Ppu, k: nat)
    requires p.Valid() && p.Enabled() && k == BoundaryDot(p) - p.dot
    ensures StatRaised(p, k) <==> !p.Signal() && PpuTicks(p, k).Signal()
    ensures PpuTicks(p, k).Valid() && PpuTicks(p, k).Enabled()
    ensures BoundaryDot(PpuTicks(p, k)) - PpuTicks(p, k).dot >= 80
  {
    hide Ppu.Signal;
    WithinSegment(p, k - 1);
    assert PpuTicks(p, k) == PpuTicks(p, k - 1).Tick();
  }

  /** At most one boundary fits in 80 T-cycles, so the line rises exactly when it is low before and high after. */
  lemma StatExact(p: Ppu, n: nat)
    requires p.Valid() && p.Enabled() && n <= 80
    ensures StatRaised(p, n) <==> n >= BoundaryDot(p) - p.dot && !p.Signal() && PpuTicks(p, n).Signal()
  {
    hide Ppu.Signal, PpuTicks, StatRaised;
    var k: nat := BoundaryDot(p) - p.dot;
    if n < k {
      WithinSegment(p, n);
    } else {
      CrossBoundary(p, k);
      WithinSegment(PpuTicks(p, k), n - k);
      PpuCompose(p, k, n - k);
    }
  }

  /** One T-cycle more is too many: from the end of a line the OAM source rises and falls within 81. */
  lemma StatBoundTight(p: Ppu, n: nat)
    requires p == Ppu(0x80, 0x20, 0xff, 0, 455) && n == 81
    ensures p.Valid() && p.Enabled() && StatRaised(p, n) && !PpuTicks(p, n).Signal()
  {
    hide PpuTicks, StatRaised;
    RisesAtOnce(p);
    PpuCompose(p, 1, n - 1);
    PositionAdvances(p, n);
    var q := PpuTicks(p, n);
    assert q.line * 456 + q.dot == 536;
    assert q.line == 1 && q.dot == 80;
  }

  lemma RisesAtOnce(p: Ppu)
    requires p.StatRises()
    ensures StatRaised(p, 1)
  {
    hide Ppu.StatRises;
    assert PpuTicks(p, 0) == p;
  }
}
