/** Honest quiet rows: the encoder's register, PPU and serial columns, and exactly when the relation accepts them. */
module RowEncoder {

  import opened Modulus
  import opened Field
  import opened Gadgets
  import opened Timer
  import opened Wrappers
  import opened Devices
  import opened Mmio
  import opened HaltSkips
  import opened Encoding
  import opened PpuRow
  import opened QuietRow
  import opened SerialRow
  import opened PpuEncoder

  // ----- one boundary -----

  function Byte(x: int): (b: seq<int>)
    ensures |b| == 8 && Bits(b)
  {
    BitsOf(x, 8)
  }

  /** Register bytes that a quiet row keeps: TMA, TAC, LCDC, STAT, SCY and SCX. */
  function LowRest(d: Device): (s: seq<int>)
    ensures |s| == 48
  {
    (Byte(d.timer.modulo) + Byte(d.timer.control)) + (Byte(d.ppu.lcdControl) + Byte(d.ppu.statControl))
    + (Byte(d.plain.scrollY) + Byte(d.plain.scrollX))
  }

  /** `low_register_pack`. */
  function LowPack(d: Device): (s: seq<int>)
    ensures |s| == 64
  {
    Byte(d.serial.data) + Byte(d.serial.control) + LowRest(d)
  }

  /** BGP, OBP0, OBP1, WY, WX and LYC. */
  function HighRest(d: Device): (s: seq<int>)
    ensures |s| == 48
  {
    (Byte(d.plain.bgPalette) + Byte(d.plain.objPalette0)) + (Byte(d.plain.objPalette1) + Byte(d.plain.windowY))
    + (Byte(d.plain.windowX) + Byte(d.ppu.lineCompare))
  }

  /** `high_register_pack`. */
  function HighPack(d: Device): (s: seq<int>)
    ensures |s| == 64
  {
    HighRest(d) + BitsOf(d.serial.remaining, 16)
  }

  function DotPrefixOf(p: Ppu): (s: seq<int>)
    ensures |s| == 6 && Bits(s)
  {
    Prefix(true, SetFlags(BitsOf(p.dot, 9)[2..8]))
  }

  function CoincidencePrefixOf(p: Ppu): (s: seq<int>)
    ensures |s| == 8 && Bits(s)
  {
    Prefix(p.Enabled(), EqualFlags(BitsOf(p.line, 8), Byte(p.lineCompare)))
  }

  /** Every column but the prefix of idle STAT sources, which reads the others. */
  function EncodeBase(d: Device): (s: Side)
    requires d.Valid()
    ensures s.Shape()
  {
    var p := d.ppu;
    Side(
      LowPack(d), HighPack(d), p.line, p.dot, BitsOf(p.line, 8), BitsOf(153 - p.line, 8), BitsOf(p.dot, 9),
      BitsOf(455 - p.dot, 9),
      AsBit(p.Enabled() && p.line >= 144), AsBit(p.Enabled() && p.dot < 80), AsBit(p.Enabled() && p.dot < 252),
      AsBit(p.line == p.lineCompare), AsBit(p.Signal()), CoincidencePrefixOf(p), Zeros(4), DotPrefixOf(p))
  }

  function EncodeSide(d: Device): (s: Side)
    requires d.Valid()
    ensures s.Shape()
  {
    EncodeBase(d).(inactivePrefix := Prefix(d.ppu.Enabled(), IdleFlags(EncodeBase(d))))
  }

  lemma PackBits(d: Device)
    ensures Bits(LowPack(d)) && Bits(HighPack(d))
  {
    hide Bits, Byte, BitsOf;
    JoinBits(Byte(d.timer.modulo), Byte(d.timer.control));
    JoinBits(Byte(d.ppu.lcdControl), Byte(d.ppu.statControl));
    JoinBits(Byte(d.plain.scrollY), Byte(d.plain.scrollX));
    JoinBits(Byte(d.timer.modulo) + Byte(d.timer.control), Byte(d.ppu.lcdControl) + Byte(d.ppu.statControl));
    JoinBits((Byte(d.timer.modulo) + Byte(d.timer.control)) + (Byte(d.ppu.lcdControl) + Byte(d.ppu.statControl)),
             Byte(d.plain.scrollY) + Byte(d.plain.scrollX));
    JoinBits(Byte(d.serial.data), Byte(d.serial.control));
    JoinBits(Byte(d.serial.data) + Byte(d.serial.control), LowRest(d));
    JoinBits(Byte(d.plain.bgPalette), Byte(d.plain.objPalette0));
    JoinBits(Byte(d.plain.objPalette1), Byte(d.plain.windowY));
    JoinBits(Byte(d.plain.windowX), Byte(d.ppu.lineCompare));
    JoinBits(Byte(d.plain.bgPalette) + Byte(d.plain.objPalette0), Byte(d.plain.objPalette1) + Byte(d.plain.windowY));
    JoinBits((Byte(d.plain.bgPalette) + Byte(d.plain.objPalette0))
             + (Byte(d.plain.objPalette1) + Byte(d.plain.windowY)),
             Byte(d.plain.windowX) + Byte(d.ppu.lineCompare));
    JoinBits(HighRest(d), BitsOf(d.serial.remaining, 16));
  }

  lemma SideBoolean(d: Device)
    requires d.Valid()
    ensures EncodeSide(d).Boolean()
  {
    hide Bits, BitsOf, LowPack, HighPack, Zeros, Prefix, IdleFlags, EqualFlags, SetFlags, Ppu.Signal, Byte;
    PackBits(d);
  }

  lemma PackParts(d: Device)
    ensures
      var low, high := LowPack(d), HighPack(d);
      && low[0..8] == Byte(d.serial.data) && low[8..16] == Byte(d.serial.control) && low[16..] == LowRest(d)
      && low[32..40] == Byte(d.ppu.lcdControl) && low[40..48] == Byte(d.ppu.statControl)
      && high[..48] == HighRest(d) && high[40..48] == Byte(d.ppu.lineCompare)
      && high[48..64] == BitsOf(d.serial.remaining, 16)
  {
    hide BitsOf, Byte;
  }

  lemma SideRoundTrip(d: Device)
    requires d.Valid()
    ensures EncodeSide(d).Decode() == d.ppu && PositionKnown(EncodeSide(d)) && EncodeSide(d).PositionRanged(1)
    ensures SerialOf(EncodeSide(d)) == d.serial
  {
    hide Packed, BitsOf, Ppu.Signal, Pow2, IdleFlags, Prefix, Bits, LowPack, HighPack;
    PowerValues();
    PackParts(d);
    BitsFit(d.serial.data, 8, 256);
    BitsFit(d.serial.control, 8, 256);
    BitsFit(d.serial.remaining, 16, 65536);
    BitsFit(d.ppu.lcdControl, 8, 256);
    BitsFit(d.ppu.statControl, 8, 256);
    BitsFit(d.ppu.lineCompare, 8, 256);
    BitsFit(d.ppu.line, 8, 256);
    BitsFit(153 - d.ppu.line, 8, 256);
    BitsFit(d.ppu.dot, 9, 512);
    BitsFit(455 - d.ppu.dot, 9, 512);
    ZeroHolds(0);
  }

  lemma SameIdleFlags(s: Side, t: seq<int>)
    requires s.Shape() && |t| == 4
    ensures s.(inactivePrefix := t).Shape() && IdleFlags(s.(inactivePrefix := t)) == IdleFlags(s)
  {
  }

  /** The constructed columns are the encoder's. */
  lemma SideEncoded(d: Device)
    requires d.Valid()
    ensures Encoded(EncodeSide(d))
  {
    hide Packed, BitsOf, Ppu.Signal, RunningBits, Bits, IdleFlags, Prefix, LowPack, HighPack;
    SideRoundTrip(d);
    PackParts(d);
    var s := EncodeSide(d);
    SameIdleFlags(s, Zeros(4));
    SameIdleFlags(s.(inactivePrefix := Zeros(4)), s.inactivePrefix);
  }

  /** States whose boundary columns the STAT relation accepts. */
  predicate Encodable(p: Ppu) { p.Enabled() || p.lineCompare % 2 == 1 }

  /** A boundary meets the STAT relation exactly when the LCD is on or LYC is odd. */
  lemma SideAccepted(d: Device)
    requires d.Valid()
    ensures StateIdentities(1, EncodeSide(d)) <==> Encodable(d.ppu)
  {
    hide EncodeSide, StateIdentities, Encoded, Side.Boolean, PositionKnown;
    SideRoundTrip(d);
    SideBoolean(d);
    SideEncoded(d);
    EncoderAcceptedExactly(EncodeSide(d));
  }

  /** Serial and timer skips need the LCD off, so their boundaries are accepted exactly when LYC is odd. */
  lemma SkipBoundaryAccepted(d: Device)
    requires d.Valid() && (UntilSerial(d).Some? || UntilTimer(d).Some?)
    ensures StateIdentities(1, EncodeSide(d)) <==> d.ppu.lineCompare % 2 == 1
  {
    hide EncodeSide, StateIdentities, TimerQuiet, DmaQuiet, TimerState.TCyclesUntilInterrupt, Device.Pending;
    SideAccepted(d);
  }

  /** The flag columns of an encoded boundary. */
  lemma EncodedColumns(d: Device)
    requires d.Valid()
    ensures
      var s, p := EncodeSide(d), d.ppu;
      && s.low == LowPack(d) && s.high == HighPack(d) && s.line == p.line && s.dot == p.dot
      && s.signal == AsBit(p.Signal()) && s.vblank == AsBit(p.Enabled() && p.line >= 144)
      && s.below80 == AsBit(p.Enabled() && p.dot < 80) && s.below252 == AsBit(p.Enabled() && p.dot < 252)
  {
    hide BitsOf, Prefix, IdleFlags, EqualFlags, SetFlags, Ppu.Signal, LowPack, HighPack;
  }

  lemma EnabledColumn(d: Device)
    requires d.Valid()
    ensures EncodeSide(d).low[39] == AsBit(d.ppu.Enabled())
  {
    hide EncodeSide;
    SideRoundTrip(d);
    SideBoolean(d);
    RegisterBits(EncodeSide(d));
  }

  // ----- a quiet row -----

  function Gap(elapsed: int, distance: int): int {
    if elapsed >= distance then elapsed - distance else distance - elapsed - 1
  }

  /** Distance columns of the next STAT boundary and of the next VBlank. */
  function StatDistanceOf(p: Ppu): int { BoundaryDot(p) - p.dot }
  function NextVBlank(p: Ppu): int { 65664 + 70224 * AsBit(p.line >= 144) }

  function ZeroChain(d: Device): (s: seq<int>)
    ensures |s| == 12 && Bits(s)
  {
    var bits := HighPack(d);
    Prefix(bits[48] == 0, ClearFlags(bits[49..61]))
  }

  function RequestBits(l: Lines): (s: seq<int>)
    ensures |s| == 5 && Bits(s)
  {
    [AsBit(l.vblank), AsBit(l.stat), AsBit(l.timer), AsBit(l.serial), AsBit(l.joypad)]
  }

  /** Lengths whose columns fit: every short row, and longer ones within a frame or with the LCD off. */
  predicate Fits(d: Device, cycles: nat) {
    cycles <= 6
    || (&& cycles <= 0x2_0000 && (d.ppu.Enabled() ==> cycles <= 17556)
        && (d.serial.Completes(4 * cycles) ==> 4 * cycles < d.serial.remaining + 32))
  }

  /** The row the encoder writes for `cycles` M-cycles from `d`, no interrupt being dispatched. */
  function QuietRowOf(d: Device, cycles: nat): Quiet
    requires d.Valid() && d.AdvanceT(4 * cycles).Valid()
  {
    var n, p, e := 4 * cycles, d.ppu, d.AdvanceT(4 * cycles);
    var on := p.Enabled();
    Quiet(EncodeSide(d), EncodeSide(e), cycles, AsBit(on && p.Position() + n >= 70224), 0,
          AsBit(on && n >= StatDistanceOf(p)), BitsOf(if on then Gap(n, StatDistanceOf(p)) else 0, 9),
          AsBit(StatRaised(p, n)),
          AsBit(on && p.Position() + n >= NextVBlank(p)),
          BitsOf(if on then Gap(p.Position() + n, NextVBlank(p)) else 0, 17),
          RequestBits(d.request), RequestBits(e.request), Zeros(5), ZeroChain(d), ZeroChain(e),
          AsBit(d.serial.Completes(n)), BitsOf(if d.serial.Completes(n) then n - d.serial.remaining else 0, 5))
  }

  lemma SameRegisters(d: Device, e: Device)
    requires e.timer.modulo == d.timer.modulo && e.timer.control == d.timer.control && e.plain == d.plain
    requires e.ppu.lcdControl == d.ppu.lcdControl && e.ppu.statControl == d.ppu.statControl
    requires e.ppu.lineCompare == d.ppu.lineCompare
    ensures LowPack(e)[16..] == LowPack(d)[16..] && HighPack(e)[..48] == HighPack(d)[..48]
  {
    hide BitsOf, Byte;
    PackParts(d);
    PackParts(e);
  }

  lemma RegistersAccepted(r: Quiet)
    requires r.Shape() && r.after.low[16..] == r.before.low[16..] && r.after.high[..48] == r.before.high[..48]
    ensures RegisterIdentities(1, r)
  {
    forall b | 16 <= b < 64 ensures Zero(1 * (r.before.low[b] - r.after.low[b])) {
      assert r.before.low[16..][b - 16] == r.after.low[16..][b - 16];
      ZeroHolds(0);
    }
    forall b | 0 <= b < 48 ensures Zero(1 * (r.before.high[b] - r.after.high[b])) {
      assert r.before.high[..48][b] == r.after.high[..48][b];
      ZeroHolds(0);
    }
  }

  lemma PositionAccepted(r: Quiet, p: Ppu, q: Ppu)
    requires r.Shape() && r.before.low[39] == AsBit(p.Enabled()) && p.Valid() && q.Valid()
    requires 0 <= r.cycles && (p.Enabled() ==> r.cycles <= 17556)
    requires r.before.line == p.line && r.before.dot == p.dot && r.after.line == q.line && r.after.dot == q.dot
    requires p.Enabled() ==> q.Position() == (p.Position() + 4 * r.cycles) % FrameTCycles
    requires !p.Enabled() ==> q == p
    requires r.wrap == AsBit(p.Enabled() && p.Position() + 4 * r.cycles >= 70224)
    ensures PositionIdentities(1, r)
  {
    ZeroHolds(0);
    if p.Enabled() {
      FrameRemainder(p.Position() + 4 * r.cycles);
      assert PositionOf(r.after) - PositionOf(r.before) - 4 * r.cycles + 70224 * r.wrap == 0;
    }
  }

  lemma EventProduct(boundary: int, before: int, after: int, event: int)
    requires Bit(boundary) && Bit(before) && Bit(after) && event == AsBit(boundary == 1 && before == 0 && after == 1)
    ensures Zero(event - boundary * (1 - before) * after)
  {
    ProductBits(boundary, 1 - before, after);
    ZeroHolds(0);
  }

  /** A comparison column pair written by the encoder, active or not. */
  lemma ComparisonAccepted(on: bool, elapsed: int, distance: int, event: int, gap: int)
    requires event == AsBit(on && elapsed >= distance) && gap == if on then Gap(elapsed, distance) else 0
    ensures ComparisonIdentities(AsBit(on), elapsed, distance, event, gap)
  {
    if on { ComparisonComplete(elapsed, distance); } else { ZeroHolds(0); }
  }

  lemma StatAccepted(d: Device, cycles: nat)
    requires d.Valid() && d.AdvanceT(4 * cycles).Valid() && Fits(d, cycles) && (d.ppu.Enabled() ==> cycles <= 20)
    ensures QuietRowOf(d, cycles).Shape() && StatIdentities(1, QuietRowOf(d, cycles))
  {
    hide Packed, BitsOf, Pow2, StatRaised, VBlankRaised, PpuTicks, ComparisonIdentities, EncodeSide, Ppu.Signal,
         ZeroChain, Ticks, Requested, Serial.Advance;
    var r, n, p := QuietRowOf(d, cycles), 4 * cycles, d.ppu;
    var e := d.AdvanceT(n);
    PowerValues();
    EncodedColumns(d);
    EncodedColumns(e);
    EnabledColumn(d);
    BitsFit(if p.Enabled() then Gap(n, StatDistanceOf(p)) else 0, 9, 512);
    if p.Enabled() {
      SideRoundTrip(d);
      SideBoolean(d);
      StatDistanceMeans(EncodeSide(d));
      StatExact(p, n);
      ComparisonAccepted(true, n, StatDistanceOf(p), r.statBoundary, Packed(r.statGap));
    } else {
      DisabledPpu(p, n);
      ComparisonAccepted(false, n, StatDistance(r.before), r.statBoundary, Packed(r.statGap));
    }
    EventProduct(r.statBoundary, r.before.signal, r.after.signal, r.statEvent);
  }

  lemma VBlankAccepted(d: Device, cycles: nat)
    requires d.Valid() && d.AdvanceT(4 * cycles).Valid() && Fits(d, cycles)
    ensures QuietRowOf(d, cycles).Shape() && VBlankIdentities(1, QuietRowOf(d, cycles))
  {
    hide Packed, BitsOf, Pow2, StatRaised, VBlankRaised, PpuTicks, ComparisonIdentities, EncodeSide, Ppu.Signal,
         ZeroChain, Ticks, Requested, Serial.Advance;
    var r, n, p := QuietRowOf(d, cycles), 4 * cycles, d.ppu;
    Pow2Below(17, 17);
    EncodedColumns(d);
    EnabledColumn(d);
    BitsFit(if p.Enabled() then Gap(p.Position() + n, NextVBlank(p)) else 0, 17, 131072);
    if p.Enabled() {
      ComparisonAccepted(true, p.Position() + n, NextVBlank(p), r.vblankEvent, Packed(r.vblankGap));
    } else {
      ComparisonAccepted(false, PositionOf(r.before) + n, 65664 + 70224 * r.before.vblank, r.vblankEvent,
                         Packed(r.vblankGap));
    }
    ZeroHolds(0);
  }

  lemma RaisedAccepted(base: bool, event: int, raised: bool)
    requires event == AsBit(raised)
    ensures Zero(1 * (AsBit(base || raised) - AsBit(base) - (1 - AsBit(base)) * event))
  {
    ZeroHolds(0);
  }

  lemma LineOfPosition(p: Ppu)
    requires p.Valid()
    ensures p.line >= 144 <==> p.Position() >= VBlankTCycle
  {
  }

  /** The VBlank column of the row is the clocked event. */
  lemma VBlankColumn(d: Device, cycles: nat)
    requires d.Valid() && d.AdvanceT(4 * cycles).Valid()
    ensures QuietRowOf(d, cycles).vblankEvent == AsBit(VBlankRaised(d.ppu, 4 * cycles))
  {
    hide EncodeSide, BitsOf, PpuTicks, VBlankRaised, StatRaised, Ppu.Signal, ZeroChain, Ticks, Requested;
    if d.ppu.Enabled() {
      VBlankExact(d.ppu, 4 * cycles);
      EntersAtPosition(d.ppu);
      LineOfPosition(d.ppu);
    } else {
      DisabledPpu(d.ppu, 4 * cycles);
    }
  }

  lemma InterruptsAccepted(d: Device, cycles: nat)
    requires d.Valid() && d.AdvanceT(4 * cycles).Valid() && Fits(d, cycles)
    ensures QuietRowOf(d, cycles).Shape() && InterruptIdentities(1, QuietRowOf(d, cycles))
  {
    hide EncodeSide, BitsOf, PpuTicks, VBlankRaised, StatRaised, Ppu.Signal, ZeroChain, Ticks, Requested,
         Serial.Completes, Serial.Advance;
    var r, n := QuietRowOf(d, cycles), 4 * cycles;
    VBlankColumn(d, cycles);
    BaseRequests(r, d.request);
    RaisedAccepted(d.request.vblank, r.vblankEvent, VBlankRaised(d.ppu, n));
    RaisedAccepted(d.request.stat, r.statEvent, StatRaised(d.ppu, n));
    ZeroHolds(0);
  }

  lemma BaseRequests(r: Quiet, l: Lines)
    requires r.Shape() && r.sources == Zeros(5) && r.beforeIf == RequestBits(l)
    ensures r.Base(0) == AsBit(l.vblank) && r.Base(1) == AsBit(l.stat) && r.Base(3) == AsBit(l.serial)
    ensures r.Base(4) == AsBit(l.joypad)
  {
  }

  // ----- serial columns -----

  /** Countdown bits up to 4096: the top three clear, the thirteenth alone. */
  lemma CountdownBits(x: int)
    requires 0 <= x <= 4096
    ensures
      var b := BitsOf(x, 16);
      b[13] == 0 && b[14] == 0 && b[15] == 0 && forall i :: 0 <= i < 12 ==> b[12] == 0 || b[i] == 0
  {
    hide Packed, BitsOf, Pow2;
    PowerValues();
    var b := BitsOf(x, 16);
    BitsFit(x, 16, 65536);
    PackedSplit(b, 13);
    PackedRange(b[..13]);
    PackedRange(b[13..]);
    SameProduct(Pow2(13), 8192, Packed(b[13..]));
    ZeroPacked(b[13..]);
    var low := b[..13];
    PackedSplit(low, 12);
    assert low[..12] == b[..12] && low[12..] == [b[12]];
    PackedOne(b[12]);
    PackedRange(b[..12]);
    SameProduct(Pow2(12), 4096, b[12]);
    if b[12] == 1 { ZeroPacked(b[..12]); }
  }

  lemma RangeAccepted(d: Device)
    requires d.Valid()
    ensures CountdownRange(1, EncodeSide(d))
  {
    hide BitsOf, EncodeSide, LowPack, HighPack;
    EncodedColumns(d);
    PackParts(d);
    CountdownBits(d.serial.remaining);
    var s, b := EncodeSide(d), BitsOf(d.serial.remaining, 16);
    assert forall i :: 48 <= i < 64 ==> s.high[i] == s.high[48..64][i - 48];
    ZeroHolds(0);
  }

  lemma ChainAccepted(d: Device)
    requires d.Valid()
    ensures ZeroProducts(EncodeSide(d), ZeroChain(d))
  {
    hide BitsOf, EncodeSide, LowPack, HighPack, ChainIdentities;
    EncodedColumns(d);
    PackBits(d);
    var s := EncodeSide(d);
    var flags := ClearFlags(s.high[49..61]);
    ClearAre(s, flags);
    RunningChain(s.high[48] == 0, flags, ZeroChain(d), ClearBits(s));
  }

  lemma ClearAre(s: Side, flags: seq<bool>)
    requires s.Shape() && Bits(s.high) && flags == ClearFlags(s.high[49..61])
    ensures forall i :: 0 <= i < 12 ==> ClearBits(s)[i] == AsBit(flags[i])
    ensures 1 - s.high[48] == AsBit(s.high[48] == 0)
  {
  }

  lemma CountdownOf(d: Device)
    requires d.Valid()
    ensures Countdown(EncodeSide(d)) == d.serial.remaining
    ensures ZeroChain(d)[11] == AsBit(d.serial.remaining == 0)
  {
    hide EncodeSide, Packed, ZeroChain, CountdownRange, ZeroProducts, Countdown;
    SideRoundTrip(d);
    SideBoolean(d);
    RangeAccepted(d);
    ChainAccepted(d);
    CountdownBounded(EncodeSide(d));
    ZeroProductsSound(EncodeSide(d), ZeroChain(d));
  }

  lemma CountdownStep(before: int, after: int, n: int, completes: bool, beforeZero: int, afterZero: int, gap: int)
    requires beforeZero == AsBit(before == 0) && afterZero == AsBit(after == 0)
    requires completes == (before != 0 && n >= before)
    requires after == if completes then 0 else if before == 0 then 0 else before - n
    requires gap == if completes then n - before else 0
    ensures
      var active, completed := 1 - beforeZero, AsBit(completes);
      && Zero(1 * (completed - active * afterZero))
      && Zero(1 * (after - before + active * (1 - completed) * n + completed * before))
      && Zero(1 * completed * (gap - n + before))
  {
    ZeroHolds(0);
  }

  lemma CountdownAccepted(d: Device, cycles: nat)
    requires d.Valid() && d.AdvanceT(4 * cycles).Valid() && Fits(d, cycles)
    ensures QuietRowOf(d, cycles).Shape() && CountdownIdentities(1, QuietRowOf(d, cycles))
  {
    hide EncodeSide, Packed, BitsOf, Pow2, PpuTicks, VBlankRaised, StatRaised, Ppu.Signal, ZeroChain, Ticks, Requested,
         Countdown;
    var r, n := QuietRowOf(d, cycles), 4 * cycles;
    var e := d.AdvanceT(n);
    PowerValues();
    CountdownOf(d);
    CountdownOf(e);
    var gap := if d.serial.Completes(n) then n - d.serial.remaining else 0;
    BitsFit(gap, 5, 32);
    CountdownStep(d.serial.remaining, e.serial.remaining, n, d.serial.Completes(n), r.beforeZero[11], r.afterZero[11],
                  gap);
    GapBitsAccepted(r, gap);
    ControlColumns(d);
    ZeroHolds(0);
  }

  lemma GapBitsAccepted(r: Quiet, gap: int)
    requires r.Shape() && r.completionGap == BitsOf(gap, 5) && (r.completed == 0 ==> gap == 0) && Bit(r.completed)
    ensures forall b :: 0 <= b < 5 ==> Zero(1 * (1 - r.completed) * r.completionGap[b])
  {
    if r.completed == 0 { ZeroBits(gap, 5); }
    forall b | 0 <= b < 5 ensures Zero(1 * (1 - r.completed) * r.completionGap[b]) {
      ZeroHolds((1 - r.completed) * r.completionGap[b]);
    }
  }

  /** A running transfer has both control bits set. */
  lemma ControlColumns(d: Device)
    requires d.Valid()
    ensures d.serial.remaining != 0 ==> EncodeSide(d).low[8] == 1 && EncodeSide(d).low[15] == 1
  {
    hide EncodeSide, Packed;
    SideRoundTrip(d);
    SideBoolean(d);
    ControlTopBit(EncodeSide(d));
  }

  /** Bits of FF, and of a control byte whose top bit is cleared. */
  lemma CompletedBits(control: int)
    requires 0 <= control < 256
    ensures forall i :: 0 <= i < 8 ==> Byte(0xff)[i] == 1
    ensures forall i :: 0 <= i < 7 ==> Byte(control % 128)[i] == Byte(control)[i]
    ensures Byte(control % 128)[7] == 0
  {
    hide Packed, BitsOf, Pow2;
    PowerValues();
    var ones, b := [1, 1, 1, 1, 1, 1, 1, 1], BitsOf(control, 8);
    Packed8(ones);
    BitsAre(ones, 255, 8, 256);
    var c := b[..7] + [0];
    BitsFit(control, 8, 256);
    Packed8(b);
    Packed8(c);
    SevenBits(b, c);
    BitsAre(c, control % 128, 8, 256);
  }

  lemma SevenBits(b: seq<int>, c: seq<int>)
    requires |b| == 8 && Bits(b) && c == b[..7] + [0]
    requires Packed(b) == b[0] + 2 * b[1] + 4 * b[2] + 8 * b[3] + 16 * b[4] + 32 * b[5] + 64 * b[6] + 128 * b[7]
    requires Packed(c) == c[0] + 2 * c[1] + 4 * c[2] + 8 * c[3] + 16 * c[4] + 32 * c[5] + 64 * c[6] + 128 * c[7]
    ensures Bits(c) && Packed(c) == Packed(b) % 128
  {
    hide Packed;
    assert Bit(b[0]) && Bit(b[1]) && Bit(b[2]) && Bit(b[3]) && Bit(b[4]) && Bit(b[5]) && Bit(b[6]) && Bit(b[7]);
    DivisionUnique(Packed(b), 128, b[7], Packed(c));
  }

  lemma DataAccepted(before: seq<int>, after: seq<int>, completed: int)
    requires |before| == 64 && |after| == 64 && Bit(completed) && Bits(before)
    requires forall b :: 0 <= b < 8 ==> after[b] == if completed == 1 then 1 else before[b]
    requires forall b :: 8 <= b < 15 ==> after[b] == before[b]
    requires after[15] == if completed == 1 then 0 else before[15]
    ensures forall b :: 0 <= b < 8 ==> Zero(1 * (after[b] - before[b] - completed * (1 - before[b])))
    ensures forall b :: 8 <= b < 15 ==> Zero(1 * (after[b] - before[b]))
    ensures Zero(1 * (after[15] - before[15] * (1 - completed)))
  {
    ZeroHolds(0);
  }

  lemma SerialColumns(d: Device, e: Device, n: nat)
    requires d.serial.Valid() && e.serial == d.serial.Advance(n)
    ensures
      var before, after, done := LowPack(d), LowPack(e), d.serial.Completes(n);
      && (forall b :: 0 <= b < 8 ==> after[b] == if done then 1 else before[b])
      && (forall b :: 8 <= b < 15 ==> after[b] == before[b])
      && after[15] == if done then 0 else before[15]
  {
    hide BitsOf, LowRest, Byte;
    CompletedBits(d.serial.control);
    LowBytes(d);
    LowBytes(e);
  }

  lemma LowBytes(d: Device)
    ensures forall b :: 0 <= b < 8 ==> LowPack(d)[b] == Byte(d.serial.data)[b]
    ensures forall b :: 8 <= b < 16 ==> LowPack(d)[b] == Byte(d.serial.control)[b - 8]
  {
    hide BitsOf, LowRest, Byte;
  }

  lemma SerialRegistersAccepted(d: Device, cycles: nat)
    requires d.Valid() && d.AdvanceT(4 * cycles).Valid() && Fits(d, cycles)
    ensures QuietRowOf(d, cycles).Shape() && SerialRegisterIdentities(1, QuietRowOf(d, cycles))
  {
    hide EncodeSide, Packed, BitsOf, PpuTicks, VBlankRaised, StatRaised, Ppu.Signal, ZeroChain, Ticks, Requested,
         Serial.Advance, Serial.Completes, LowPack, HighPack;
    var r, n := QuietRowOf(d, cycles), 4 * cycles;
    var e := d.AdvanceT(n);
    EncodedColumns(d);
    EncodedColumns(e);
    PackBits(d);
    SerialColumns(d, e, n);
    DataAccepted(r.before.low, r.after.low, r.completed);
    BaseRequests(r, d.request);
    RaisedAccepted(d.request.serial, r.completed, d.serial.Completes(n));
  }

  // ----- the whole quiet row -----

  lemma QuietRowBoolean(d: Device, cycles: nat)
    requires d.Valid() && d.AdvanceT(4 * cycles).Valid()
    ensures QuietRowOf(d, cycles).Boolean()
  {
    hide EncodeSide, BitsOf, PpuTicks, VBlankRaised, StatRaised, Ppu.Signal, ZeroChain, RequestBits, Zeros, Ticks,
         Requested, Bits, Serial.Completes, Device.AdvanceT;
    SideBoolean(d);
    SideBoolean(d.AdvanceT(4 * cycles));
  }

  lemma SerialAccepted(d: Device, cycles: nat)
    requires d.Valid() && d.AdvanceT(4 * cycles).Valid() && Fits(d, cycles)
    ensures QuietRowOf(d, cycles).Shape() && SerialIdentities(1, QuietRowOf(d, cycles))
  {
    hide EncodeSide, BitsOf, PpuTicks, VBlankRaised, StatRaised, Ppu.Signal, ZeroChain, Ticks, Requested,
         Device.AdvanceT, CountdownRange, ZeroProducts, CountdownIdentities, SerialRegisterIdentities, RequestBits;
    var e := d.AdvanceT(4 * cycles);
    CountdownAccepted(d, cycles);
    SerialRegistersAccepted(d, cycles);
    RangeAccepted(d);
    RangeAccepted(e);
    ChainAccepted(d);
    ChainAccepted(e);
  }

  lemma PositionRowAccepted(d: Device, cycles: nat)
    requires d.Valid() && d.AdvanceT(4 * cycles).Valid() && Fits(d, cycles)
    ensures QuietRowOf(d, cycles).Shape() && PositionIdentities(1, QuietRowOf(d, cycles))
    ensures RegisterIdentities(1, QuietRowOf(d, cycles))
  {
    hide EncodeSide, BitsOf, PpuTicks, VBlankRaised, StatRaised, Ppu.Signal, ZeroChain, RegisterIdentities,
         PositionIdentities, Ticks, Requested, LowPack, HighPack, Serial.Advance, Serial.Completes, RequestBits;
    var r, n := QuietRowOf(d, cycles), 4 * cycles;
    var e := d.AdvanceT(n);
    EncodedColumns(d);
    EncodedColumns(e);
    EnabledColumn(d);
    SameRegisters(d, e);
    RegistersAccepted(r);
    if d.ppu.Enabled() { PositionAdvances(d.ppu, n); } else { DisabledPpu(d.ppu, n); }
    PositionAccepted(r, d.ppu, e.ppu);
  }

  /** Without a dispatch, for every length whose columns fit: accepted exactly when the LCD is on or LYC is odd. */
  lemma ClockAcceptedExactly(d: Device, cycles: nat)
    requires d.Valid() && Fits(d, cycles) && (d.ppu.Enabled() ==> cycles <= 20)
    ensures d.AdvanceT(4 * cycles).Valid()
    ensures
      var r := QuietRowOf(d, cycles);
      r.Shape() && r.BooleanIdentitiesHold() && (QuietIdentities(r) <==> Encodable(d.ppu))
  {
    hide Fits;
    AdvanceValid(d, 4 * cycles);
    QuietParts(d, cycles);
  }

  lemma QuietParts(d: Device, cycles: nat)
    requires d.Valid() && d.AdvanceT(4 * cycles).Valid() && Fits(d, cycles) && (d.ppu.Enabled() ==> cycles <= 20)
    ensures
      var r := QuietRowOf(d, cycles);
      r.Shape() && r.BooleanIdentitiesHold() && (QuietIdentities(r) <==> Encodable(d.ppu))
  {
    hide EncodeSide, BitsOf, PpuTicks, VBlankRaised, StatRaised, Ppu.Signal, ZeroChain, StateIdentities,
         Side.PositionRanged, RegisterIdentities, PositionIdentities, StatIdentities, VBlankIdentities,
         InterruptIdentities, SerialIdentities, Ticks, Requested, RequestBits, Quiet.Boolean,
         Quiet.BooleanIdentitiesHold, Serial.Completes, Serial.Advance, Zeros, Device.Valid, Fits;
    var r, e := QuietRowOf(d, cycles), d.AdvanceT(4 * cycles);
    QuietRowBoolean(d, cycles);
    QuietBits(r);
    SideRoundTrip(d);
    SideRoundTrip(e);
    SideAccepted(d);
    SideAccepted(e);
    StatAccepted(d, cycles);
    VBlankAccepted(d, cycles);
    InterruptsAccepted(d, cycles);
    SerialAccepted(d, cycles);
    PositionRowAccepted(d, cycles);
  }

  // ----- rows with a dispatched interrupt -----

  /** The device the clock of the row sees: a dispatched line is acknowledged first. */
  function Clocked(d: Device, source: Option<Interrupt>): Device {
    match source case None => d case Some(i) => d.(request := AcknowledgeLine(d.request, i))
  }

  function SourceBits(source: Option<Interrupt>): (s: seq<int>)
    ensures |s| == 5 && Bits(s)
  {
    [AsBit(source == Some(VBlank)), AsBit(source == Some(LcdStat)), AsBit(source == Some(TimerOverflow)),
     AsBit(source == Some(SerialDone)), AsBit(source == Some(Joypad))]
  }

  /** The row of `cycles` M-cycles from `d` in which `source`, if any, is dispatched. */
  function ClockedRowOf(d: Device, source: Option<Interrupt>, cycles: nat): Quiet
    requires Clocked(d, source).Valid() && Clocked(d, source).AdvanceT(4 * cycles).Valid()
  {
    QuietRowOf(Clocked(d, source), cycles).(beforeIf := RequestBits(d.request), sources := SourceBits(source))
  }

  lemma ClockedValid(d: Device, source: Option<Interrupt>)
    requires d.Valid()
    ensures Clocked(d, source).Valid() && Clocked(d, source).ppu == d.ppu
    ensures EncodeSide(Clocked(d, source)) == EncodeSide(d)
  {
    hide Packed, BitsOf, Prefix, IdleFlags, EqualFlags, SetFlags, Ppu.Signal;
  }

  /** A dispatched line and its request give the base bit of the acknowledged request. */
  lemma SameBase(r: Quiet, t: Quiet, d: Device, source: Option<Interrupt>)
    requires r.Shape() && t.Shape() && t.sources == Zeros(5) && t.beforeIf == RequestBits(Clocked(d, source).request)
    requires r.beforeIf == RequestBits(d.request) && r.sources == SourceBits(source)
    ensures r.Base(0) == t.Base(0) && r.Base(1) == t.Base(1) && r.Base(3) == t.Base(3) && r.Base(4) == t.Base(4)
  {
  }

  /** Only the base bits tie the identities to the request columns. */
  lemma SameIdentities(r: Quiet, t: Quiet)
    requires r.Shape() && t.Shape() && r == t.(beforeIf := r.beforeIf, sources := r.sources)
    requires r.Base(0) == t.Base(0) && r.Base(1) == t.Base(1) && r.Base(3) == t.Base(3) && r.Base(4) == t.Base(4)
    ensures QuietIdentities(r) <==> QuietIdentities(t)
  {
    hide Packed, Zero, StateIdentities, Side.PositionRanged, Quiet.Base, SerialIdentities, StatIdentities,
         VBlankIdentities, RegisterIdentities, PositionIdentities, Quiet.Shape;
    SameSerial(r, t);
    SameIntervals(r, t);
  }

  lemma SameIntervals(r: Quiet, t: Quiet)
    requires r.Shape() && t.Shape() && r == t.(beforeIf := r.beforeIf, sources := r.sources)
    ensures RegisterIdentities(1, r) <==> RegisterIdentities(1, t)
    ensures PositionIdentities(1, r) <==> PositionIdentities(1, t)
    ensures StatIdentities(1, r) <==> StatIdentities(1, t)
    ensures VBlankIdentities(1, r) <==> VBlankIdentities(1, t)
  {
    hide Packed, Zero, ComparisonIdentities, StatDistance;
  }

  /** The columns the serial relation reads. */
  predicate SerialAgrees(r: Quiet, t: Quiet) {
    && r.Shape() && t.Shape() && r.before == t.before && r.after == t.after && r.cycles == t.cycles
    && r.beforeZero == t.beforeZero && r.afterZero == t.afterZero && r.completed == t.completed
    && r.completionGap == t.completionGap && r.afterIf == t.afterIf && r.Base(3) == t.Base(3)
  }

  lemma SameSerial(r: Quiet, t: Quiet)
    requires SerialAgrees(r, t)
    ensures SerialIdentities(1, r) <==> SerialIdentities(1, t)
  {
    hide CountdownRange, ZeroProducts, Quiet.Base, CountdownIdentities, SerialRegisterIdentities;
    SameCountdown(r, t);
    SameSerialRegisters(r, t);
  }

  lemma SameCountdown(r: Quiet, t: Quiet)
    requires SerialAgrees(r, t)
    ensures CountdownIdentities(1, r) <==> CountdownIdentities(1, t)
  {
    hide Packed, Zero, Quiet.Base, Countdown;
  }

  lemma SameSerialRegisters(r: Quiet, t: Quiet)
    requires SerialAgrees(r, t)
    ensures SerialRegisterIdentities(1, r) <==> SerialRegisterIdentities(1, t)
  {
    hide Zero, Quiet.Base;
  }

  /**
    * Completeness of the quiet row: for every valid device, every dispatched line or none, and every short length the
    * encoder's row meets the boolean identities, and all others exactly when the LCD is on or LYC is odd.
    */
  lemma QuietRowAcceptedExactly(d: Device, source: Option<Interrupt>, cycles: nat)
    requires d.Valid() && cycles <= 6
    ensures Clocked(d, source).Valid() && Clocked(d, source).AdvanceT(4 * cycles).Valid()
    ensures
      var r := ClockedRowOf(d, source, cycles);
      && r.Shape() && r.BooleanIdentitiesHold() && r.before == EncodeSide(d)
      && (QuietIdentities(r) <==> Encodable(d.ppu))
  {
    hide EncodeSide, QuietIdentities, Device.Valid, Device.AdvanceT, QuietRowOf, Quiet.BooleanIdentitiesHold, Clocked,
         Quiet.Shape;
    ClockedValid(d, source);
    ClockAcceptedExactly(Clocked(d, source), cycles);
    DispatchedParts(d, source, cycles);
  }

  lemma DispatchedParts(d: Device, source: Option<Interrupt>, cycles: nat)
    requires d.Valid() && cycles <= 6 && Clocked(d, source).Valid() && Clocked(d, source).AdvanceT(4 * cycles).Valid()
    requires
      var t := QuietRowOf(Clocked(d, source), cycles);
      t.Shape() && t.BooleanIdentitiesHold() && (QuietIdentities(t) <==> Encodable(d.ppu))
    ensures
      var r := ClockedRowOf(d, source, cycles);
      && r.Shape() && r.BooleanIdentitiesHold() && r.before == EncodeSide(d)
      && (QuietIdentities(r) <==> Encodable(d.ppu))
  {
    hide EncodeSide, QuietIdentities, Device.Valid, Device.AdvanceT, BitsOf, ZeroChain, StatRaised, VBlankRaised,
         PpuTicks, Quiet.BooleanIdentitiesHold, Clocked, Ppu.Signal, Bits, RequestBits, SourceBits, Quiet.Base;
    var r, t := ClockedRowOf(d, source, cycles), QuietRowOf(Clocked(d, source), cycles);
    ClockedValid(d, source);
    QuietBits(r);
    QuietBits(t);
    SameBase(r, t, d, source);
    SameIdentities(r, t);
  }
}
