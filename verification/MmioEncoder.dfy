/** Honest PPU columns of device-access rows, and exactly when the relation accepts them. */
module MmioEncoder {

  import opened Field
  import opened Gadgets
  import opened Timer
  import opened Devices
  import opened Encoding
  import opened PpuRow
  import opened QuietRow
  import opened PpuEncoder
  import opened RowEncoder
  import opened MmioRow
  import Mmio

  /** Accesses the machine makes: implemented registers, byte values, no FF46 store during a transfer. */
  predicate Accepts(d: Device, a: Access) {
    a.Write? ==> Mmio.Implemented(a.address) && 0 <= a.value < 256 && (d.dma.active ==> a.address != 0xff46)
  }

  lemma AccessedValid(d: Device, a: Access)
    requires d.Valid() && Accepts(d, a)
    ensures Accessed(d, a).Valid()
  {
    hide Device.Valid, Mmio.WriteRequest, Mmio.WritePpu, Mmio.WriteSerial, Mmio.WritePlain, TimerState.Write,
         Mmio.Apply;
    if a.Write? {
      Mmio.ApplyKeepsValid(d, Mmio.Write(a.address, a.value));
      Applied(d, a.address, a.value);
    }
  }

  lemma Applied(d: Device, address: int, value: int)
    ensures Mmio.Apply(d, Mmio.Write(address, value)) == Accessed(d, Write(address, value))
  {
    hide Mmio.WriteMmio;
  }

  function Selected(a: Access, address: int): int { AsBit(a.Write? && a.address == address) }
  function ValueOf(a: Access): int { if a.Write? then a.value else 0 }

  lemma ByteValue(v: int)
    requires 0 <= v < 256
    ensures Packed(Byte(v)) == v && Byte(v)[0] == v % 2 && Byte(v)[1] == v / 2 % 2 && Byte(v)[3] == v / 8 % 2
    ensures Bit(Byte(v)[7]) && (Byte(v)[7] == 1 <==> v >= 128)
  {
    hide Packed, BitsOf, Pow2;
    PowerValues();
    BitsFit(v, 8, 256);
    ByteRange(Byte(v));
    PackedBit(Byte(v), 3);
  }

  lemma BaseHolds(base: int, before: int, sel: int, write: int, v: int)
    requires Bit(sel) && Bit(write) && base == if sel == 1 && write == 1 then v else before
    ensures Zero(base - before - sel * write * (v - before))
  {
    ZeroHolds(0);
    assert base - before - sel * write * (v - before) == 0;
  }

  // ----- the state between the write and the clock -----

  /** `append_ppu_state`: the boundary columns of `e`, with the coincidence prefix started from one. */
  function PostSide(e: Device, f: Device): Side
    requires e.Valid() && f.Valid()
  {
    var p := e.ppu;
    var line, dot := BitsOf(p.line, 8), BitsOf(p.dot, 9);
    EncodeSide(e).(low := LowPack(f), high := HighPack(f), line := Packed(line), dot := Packed(dot),
                   lineSlack := line, dotSlack := dot,
                   coincidencePrefix := Prefix(true, EqualFlags(line, Byte(p.lineCompare))))
  }

  predicate SameControls(p: Ppu, q: Ppu) {
    q.lcdControl == p.lcdControl && q.statControl == p.statControl && q.lineCompare == p.lineCompare
  }

  lemma PostSideParts(e: Device, f: Device)
    requires e.Valid() && f.Valid() && SameControls(e.ppu, f.ppu)
    ensures
      var s, t := PostSide(e, f), EncodeSide(e);
      && s.Shape() && s.Boolean() && s.Decode() == e.ppu && PositionKnown(s) && s.line == e.ppu.line
      && s.dot == e.ppu.dot
      && s.low[32..48] == t.low[32..48] && s.high[40..48] == t.high[40..48]
  {
    hide Packed, BitsOf, Ppu.Signal, Pow2, IdleFlags, Prefix, Bits, LowPack, HighPack, EncodeSide, EqualFlags, Byte;
    SideRoundTrip(e);
    SideBoolean(e);
    PackBits(f);
    PackParts(e);
    PackParts(f);
    EncodedColumns(e);
    PositionColumns(e);
    StatusBytes(e);
    StatusBytes(f);
  }

  lemma StatusBytes(d: Device)
    ensures LowPack(d)[32..48] == Byte(d.ppu.lcdControl) + Byte(d.ppu.statControl)
    ensures Packed(LowPack(d)[32..40]) == Packed(Byte(d.ppu.lcdControl))
    ensures Packed(LowPack(d)[40..48]) == Packed(Byte(d.ppu.statControl))
    ensures HighPack(d)[40..48] == Byte(d.ppu.lineCompare)
  {
    hide Packed, Byte, BitsOf;
    PackParts(d);
    assert LowPack(d)[32..48] == LowPack(d)[32..40] + LowPack(d)[40..48];
  }

  lemma PositionColumns(d: Device)
    requires d.Valid()
    ensures
      var s := EncodeSide(d);
      && s.lineBits == BitsOf(d.ppu.line, 8) && s.dotBits == BitsOf(d.ppu.dot, 9)
      && Packed(BitsOf(d.ppu.line, 8)) == d.ppu.line && Packed(BitsOf(d.ppu.dot, 9)) == d.ppu.dot
  {
    hide Packed, BitsOf, Prefix, IdleFlags, EqualFlags, SetFlags, Ppu.Signal, LowPack, HighPack, Pow2;
    PowerValues();
    BitsFit(d.ppu.line, 8, 256);
    BitsFit(d.ppu.dot, 9, 512);
  }

  lemma SameIdle(s: Side, t: Side)
    requires s.Shape() && t.Shape() && s.low[32..48] == t.low[32..48]
    requires s.vblank == t.vblank && s.below80 == t.below80 && s.below252 == t.below252
    requires s.coincidence == t.coincidence
    ensures IdleFlags(s) == IdleFlags(t)
  {
    assert forall i :: 32 <= i < 48 ==> s.low[i] == s.low[32..48][i - 32] && t.low[i] == t.low[32..48][i - 32];
  }

  lemma PostSideEncoded(e: Device, f: Device)
    requires e.Valid() && f.Valid() && SameControls(e.ppu, f.ppu)
    ensures PostSide(e, f).Shape() && EncodedFrom(PostSide(e, f), true)
  {
    hide Packed, BitsOf, Ppu.Signal, RunningBits, Bits, IdleFlags, Prefix, LowPack, HighPack, EncodeSide, EqualFlags,
         SetFlags;
    SideEncoded(e);
    PostSideParts(e, f);
    SideRoundTrip(e);
    PositionColumns(e);
    StatusBytes(f);
    SameIdle(PostSide(e, f), EncodeSide(e));
  }

  lemma PostAccepted(e: Device, f: Device)
    requires e.Valid() && f.Valid() && SameControls(e.ppu, f.ppu)
    ensures PostSide(e, f).Shape() && StateIdentities(1, PostSide(e, f))
  {
    hide PostSide, EncodedFrom, StateIdentities, Side.Boolean, PositionKnown;
    PostSideParts(e, f);
    PostSideEncoded(e, f);
    StartedAccepted(PostSide(e, f));
  }

  // ----- the row -----

  /** The device after the access, before the clock, and at the end of the row. */
  function End(d: Device, a: Access, cycles: nat): Device { Accessed(d, a).AdvanceT(4 * cycles) }

  predicate Ready(d: Device, a: Access, cycles: nat) {
    d.Valid() && Accepts(d, a) && Accessed(d, a).Valid() && End(d, a, cycles).Valid() && cycles <= 6
  }

  /** A register write raised the composite STAT line at once. */
  predicate Immediate(d: Device, a: Access) {
    && a.Write? && (a.address == 0xff40 || a.address == 0xff41 || a.address == 0xff45)
    && !d.ppu.Signal() && Accessed(d, a).ppu.Signal()
  }

  /** IF bits 0 and 1 before any STAT edge. */
  function BaseLines(d: Device, a: Access): Lines {
    if a.Write? && a.address == 0xff0f then FromByte(a.value) else d.request
  }

  predicate Disables(a: Access) { a.Write? && a.address == 0xff40 && a.value < 128 }

  /** `append_ppu_mmio_row`. */
  function IoRowOf(d: Device, a: Access, cycles: nat): IoRow
    requires Ready(d, a, cycles)
  {
    var e, f := Accessed(d, a), End(d, a, cycles);
    var s, q, base := PostSide(e, f), QuietRowOf(e, cycles), BaseLines(d, a);
    IoRow(EncodeSide(d), EncodeSide(f), cycles,
          AsBit(a.Write?), Selected(a, 0xff40), Selected(a, 0xff41), Selected(a, 0xff45), Selected(a, 0xff0f),
          Byte(ValueOf(a)),
          BitsOf(e.ppu.line, 8), BitsOf(e.ppu.dot, 9), s.vblank, s.below80, s.below252, s.coincidence, s.signal,
          s.coincidencePrefix, s.inactivePrefix, s.dotPrefix,
          AsBit(Disables(a)), AsBit(base.vblank), AsBit(base.stat), AsBit(base.stat || Immediate(d, a)),
          AsBit(Immediate(d, a)), q.wrap,
          q.statBoundary, q.statGap, q.statEvent, q.vblankEvent, q.vblankGap, RequestBits(d.request),
          RequestBits(f.request))
  }

  /** What the row shares with the quiet row of the clock that follows the write. */
  lemma RowParts(d: Device, a: Access, cycles: nat)
    requires Ready(d, a, cycles)
    ensures
      var e, f, r := Accessed(d, a), End(d, a, cycles), IoRowOf(d, a, cycles);
      var q := QuietRowOf(e, cycles);
      && r.Shape() && q.Shape() && r.Post() == PostSide(e, f) && SameControls(e.ppu, f.ppu)
      && q.before == EncodeSide(e) && q.after == r.after == EncodeSide(f) && q.cycles == r.cycles == cycles
      && q.longVBlank == 0
      && r.wrap == q.wrap && r.statBoundary == q.statBoundary && r.statGap == q.statGap && r.statEvent == q.statEvent
      && r.vblankEvent == q.vblankEvent && r.vblankGap == q.vblankGap && q.sources == Zeros(5)
      && q.beforeIf == RequestBits(e.request) && q.afterIf == r.afterIf
  {
    hide EncodeSide, Packed, Byte, BitsOf, Prefix, EqualFlags, LowPack, HighPack, VBlankRaised, StatRaised, Ppu.Signal,
         ZeroChain, Ticks, Requested, Accessed, Mmio.Implemented, Device.Valid, Serial.Completes, Serial.Advance, Zeros,
         RequestBits, Immediate;
    var e, f := Accessed(d, a), End(d, a, cycles);
    ClockedControls(e, 4 * cycles);
    PostSideParts(e, f);
    PositionColumns(e);
    EncodedColumns(f);
  }

  lemma ClockedControls(d: Device, n: nat)
    ensures SameControls(d.ppu, d.AdvanceT(n).ppu)
  {
  }

  /** The PPU columns of the clock do not see whether the boundary or the post-write state carries them. */
  lemma SameClock(e: Device, f: Device)
    requires e.Valid() && f.Valid() && SameControls(e.ppu, f.ppu)
    ensures
      var s, t := PostSide(e, f), EncodeSide(e);
      && s.line == t.line && s.dot == t.dot && s.vblank == t.vblank && s.below80 == t.below80
      && s.below252 == t.below252
      && s.signal == t.signal && EncodeSide(f).low[39] == t.low[39] && t.low[39] == AsBit(e.ppu.Enabled())
  {
    hide Packed, BitsOf, Prefix, LowPack, HighPack, EncodeSide, EqualFlags, Byte;
    PositionColumns(e);
    EncodedColumns(e);
    EnabledColumn(e);
    EnabledColumn(f);
  }

  lemma ClockAccepted(d: Device, a: Access, cycles: nat)
    requires Ready(d, a, cycles)
    ensures IoRowOf(d, a, cycles).Shape() && ClockIdentities(IoRowOf(d, a, cycles))
  {
    hide EncodeSide, Packed, QuietRowOf, IoRowOf, PostSide, Accessed, End, Mmio.Implemented, Device.Valid,
         ComparisonIdentities, Zero;
    RowParts(d, a, cycles);
    var e, f := Accessed(d, a), End(d, a, cycles);
    EndIs(d, a, cycles);
    SameClock(e, f);
    PositionRowAccepted(e, cycles);
    StatAccepted(e, cycles);
    VBlankAccepted(e, cycles);
    ClockFromQuiet(IoRowOf(d, a, cycles), QuietRowOf(e, cycles));
  }

  lemma EndIs(d: Device, a: Access, cycles: nat)
    ensures End(d, a, cycles) == Accessed(d, a).AdvanceT(4 * cycles)
  {
  }

  lemma ClockFromQuiet(r: IoRow, q: Quiet)
    requires r.Shape() && q.Shape() && PositionIdentities(1, q) && StatIdentities(1, q) && VBlankIdentities(1, q)
    requires q.longVBlank == 0
    requires
      var s, t := r.Post(), q.before;
      && s.line == t.line && s.dot == t.dot && s.vblank == t.vblank && s.below80 == t.below80
      && s.below252 == t.below252
      && s.signal == t.signal && r.after.low[39] == t.low[39] && Bit(t.low[39])
    requires q.after == r.after && q.cycles == r.cycles && r.wrap == q.wrap && r.statBoundary == q.statBoundary
    requires r.statGap == q.statGap
    requires r.statEvent == q.statEvent && r.vblankEvent == q.vblankEvent && r.vblankGap == q.vblankGap
    ensures ClockIdentities(r)
  {
    hide Packed, ComparisonIdentities, Zero;
    ScaledOnce(q.before.low[39]);
    var x := PositionOf(r.after) - PositionOf(r.Post()) - 4 * r.cycles + 70224 * r.wrap;
    OneTimes(q.before.low[39], x);
    OneTimes(1 - q.before.low[39], r.after.line);
    OneTimes(1 - q.before.low[39], r.after.dot);
    OneTimes(1 - q.before.low[39], r.wrap);
    OneTimes(1 - q.before.low[39], Packed(r.postLine));
    OneTimes(1 - q.before.low[39], Packed(r.postDot));
  }

  lemma ScaledOnce(x: int)
    ensures 1 * x == x && 1 * x * (1 - 0) == x
  {
  }

  lemma OneTimes(x: int, y: int)
    ensures 1 * x * y == x * y
  {
  }

  // ----- the write -----

  lemma WrittenControls(d: Device, a: Access)
    requires Accepts(d, a)
    ensures
      var p, q, v := d.ppu, Accessed(d, a).ppu, ValueOf(a);
      && q.lcdControl == (if Selected(a, 0xff40) == 1 then v else p.lcdControl)
      && q.statControl == (if Selected(a, 0xff41) == 1 then v / 8 % 16 * 8 else p.statControl)
      && q.lineCompare == (if Selected(a, 0xff45) == 1 then v else p.lineCompare)
      && q.line == (if Disables(a) then 0 else p.line) && q.dot == (if Disables(a) then 0 else p.dot)
  {
    hide Mmio.WriteRequest, Mmio.WriteSerial, Mmio.WritePlain, TimerState.Write;
  }

  lemma SelectedWrites(a: Access, address: int)
    ensures Selected(a, address) * AsBit(a.Write?) == Selected(a, address) && Bit(Selected(a, address))
  {
  }

  lemma StableAccepted(d: Device, a: Access, cycles: nat)
    requires Ready(d, a, cycles)
    ensures IoRowOf(d, a, cycles).Shape() && StableRegisters(IoRowOf(d, a, cycles))
  {
    hide EncodeSide, Packed, Byte, BitsOf, PostSide, QuietRowOf, Accessed, Mmio.Implemented, Device.AdvanceT,
         Device.Valid, ByteIdentity, RequestBits, Immediate, MaskedStatus;
    var r, e, f, v := IoRowOf(d, a, cycles), Accessed(d, a), End(d, a, cycles), ValueOf(a);
    RowParts(d, a, cycles);
    WrittenControls(d, a);
    SideRoundTrip(d);
    SideRoundTrip(f);
    ByteValue(v);
    MaskedStatusMeans(Byte(v));
    SelectedWrites(a, 0xff40);
    SelectedWrites(a, 0xff41);
    SelectedWrites(a, 0xff45);
    ByteHolds(f.ppu.lcdControl, d.ppu.lcdControl, r.sel40 * r.write, v);
    ByteHolds(f.ppu.statControl, d.ppu.statControl, r.sel41 * r.write, MaskedStatus(r.value));
    ByteHolds(f.ppu.lineCompare, d.ppu.lineCompare, r.sel45 * r.write, v);
  }

  lemma MaskHolds(post: seq<int>, before: seq<int>, disable: int)
    requires |post| == |before| && Bits(before) && Bit(disable)
    requires disable == 0 ==> post == before
    requires disable == 1 ==> forall i :: 0 <= i < |post| ==> post[i] == 0
    ensures forall i :: 0 <= i < |post| ==> Zero(post[i] - before[i] * (1 - disable))
  {
    ZeroHolds(0);
    forall i | 0 <= i < |post| ensures Zero(post[i] - before[i] * (1 - disable)) {
      assert post[i] - before[i] * (1 - disable) == 0;
    }
  }

  lemma DisableHolds(a: Access, v7: int)
    requires Bit(v7) && (a.Write? ==> (v7 == 1 <==> a.value >= 128))
    ensures Zero(AsBit(Disables(a)) - Selected(a, 0xff40) * AsBit(a.Write?) * (1 - v7))
  {
    ZeroHolds(0);
  }

  lemma OffAtOrigin(d: Device)
    requires d.Valid()
    ensures
      var s := EncodeSide(d);
      Zero((1 - s.low[39]) * s.line) && Zero((1 - s.low[39]) * s.dot)
  {
    hide EncodeSide;
    EncodedColumns(d);
    EnabledColumn(d);
    ZeroHolds(0);
  }

  lemma PostPositionAccepted(d: Device, a: Access, cycles: nat)
    requires Ready(d, a, cycles)
    ensures IoRowOf(d, a, cycles).Shape() && PostPosition(IoRowOf(d, a, cycles))
  {
    hide EncodeSide, Packed, Byte, BitsOf, PostSide, QuietRowOf, Accessed, Mmio.Implemented, Device.AdvanceT,
         Device.Valid, RequestBits, Immediate, Zero;
    var r, e, v := IoRowOf(d, a, cycles), Accessed(d, a), ValueOf(a);
    RowParts(d, a, cycles);
    WrittenControls(d, a);
    PositionColumns(d);
    ByteValue(v);
    DisableHolds(a, r.value[7]);
    ZeroBits(0, 8);
    ZeroBits(0, 9);
    MaskHolds(r.postLine, r.before.lineBits, r.disable);
    MaskHolds(r.postDot, r.before.dotBits, r.disable);
    OffAtOrigin(d);
  }

  // ----- interrupt edges -----

  lemma ImmediateHolds(d: Device, a: Access)
    ensures
      var sum := Selected(a, 0xff40) + Selected(a, 0xff41) + Selected(a, 0xff45);
      Zero(AsBit(Immediate(d, a))
           - AsBit(a.Write?) * sum * (1 - AsBit(d.ppu.Signal())) * AsBit(Accessed(d, a).ppu.Signal()))
  {
    hide Ppu.Signal, Accessed;
    ZeroHolds(0);
    var sum := Selected(a, 0xff40) + Selected(a, 0xff41) + Selected(a, 0xff45);
    FourBits(AsBit(a.Write?), sum, 1 - AsBit(d.ppu.Signal()), AsBit(Accessed(d, a).ppu.Signal()));
  }

  lemma RequestAfterWrite(d: Device, a: Access)
    requires Accepts(d, a)
    ensures
      var l, base := Accessed(d, a).request, BaseLines(d, a);
      l.vblank == base.vblank && l.stat == (base.stat || Immediate(d, a))
  {
    hide Ppu.Signal, Mmio.WriteSerial, Mmio.WritePlain, TimerState.Write, Mmio.JoypadFalls;
  }

  lemma LineBits(v: int)
    requires 0 <= v < 256
    ensures AsBit(FromByte(v).vblank) == v % 2 && AsBit(FromByte(v).stat) == v / 2 % 2
  {
  }

  lemma EdgeHolds(after: int, base: bool, event: int, raised: bool)
    requires event == AsBit(raised) && after == AsBit(base || raised)
    ensures Zero((after - AsBit(base)) - event * (1 - AsBit(base)))
  {
    ZeroHolds(0);
  }

  lemma EventColumns(e: Device, cycles: nat)
    requires e.Valid() && e.AdvanceT(4 * cycles).Valid()
    ensures
      var q, l, m := QuietRowOf(e, cycles), e.request, e.AdvanceT(4 * cycles).request;
      && q.vblankEvent == AsBit(VBlankRaised(e.ppu, 4 * cycles)) && q.statEvent == AsBit(StatRaised(e.ppu, 4 * cycles))
      && m.vblank == (l.vblank || VBlankRaised(e.ppu, 4 * cycles))
      && m.stat == (l.stat || StatRaised(e.ppu, 4 * cycles))
  {
    hide EncodeSide, BitsOf, PpuTicks, VBlankRaised, StatRaised, Ppu.Signal, ZeroChain, Ticks, Requested,
         Serial.Completes, Serial.Advance;
    VBlankColumn(e, cycles);
  }

  lemma EdgesAccepted(d: Device, a: Access, cycles: nat)
    requires Ready(d, a, cycles)
    ensures IoRowOf(d, a, cycles).Shape() && EdgeIdentities(IoRowOf(d, a, cycles))
  {
    hide EncodeSide, Packed, Byte, BitsOf, PostSide, QuietRowOf, Accessed, Mmio.Implemented, Device.AdvanceT,
         Device.Valid, Immediate, Zero, VBlankRaised, StatRaised, Ppu.Signal;
    var r, e, f, base := IoRowOf(d, a, cycles), Accessed(d, a), End(d, a, cycles), BaseLines(d, a);
    var n := 4 * cycles;
    RowParts(d, a, cycles);
    SignalColumns(d, a, cycles);
    ImmediateHolds(d, a);
    RequestAfterWrite(d, a);
    EventColumns(e, cycles);
    ByteValue(ValueOf(a));
    LineBits(ValueOf(a));
    BaseHolds(r.base0, r.beforeIf[0], r.sel0f, r.write, r.value[0]);
    BaseHolds(r.base1, r.beforeIf[1], r.sel0f, r.write, r.value[1]);
    EdgeHolds(r.post1, base.stat, r.immediate, Immediate(d, a));
    EdgeHolds(r.afterIf[0], base.vblank, r.vblankEvent, VBlankRaised(e.ppu, n));
    EdgeHolds(r.afterIf[1], base.stat || Immediate(d, a), r.statEvent, StatRaised(e.ppu, n));
  }

  lemma SignalColumns(d: Device, a: Access, cycles: nat)
    requires Ready(d, a, cycles)
    ensures
      var r := IoRowOf(d, a, cycles);
      r.before.signal == AsBit(d.ppu.Signal()) && r.signal == AsBit(Accessed(d, a).ppu.Signal())
  {
    hide EncodeSide, Packed, Byte, BitsOf, QuietRowOf, Accessed, Mmio.Implemented, Device.AdvanceT, Device.Valid,
         Immediate, Ppu.Signal, Prefix, LowPack, HighPack, EqualFlags, RequestBits;
    EncodedColumns(d);
    EncodedColumns(Accessed(d, a));
  }

  // ----- the whole row -----

  lemma IoRowBoolean(d: Device, a: Access, cycles: nat)
    requires Ready(d, a, cycles)
    ensures IoRowOf(d, a, cycles).BooleanIdentitiesHold()
  {
    hide EncodeSide, Packed, Byte, BitsOf, QuietRowOf, Accessed, Mmio.Implemented, Device.AdvanceT, Device.Valid,
         Immediate, PostSide, RequestBits, Bits, IoRow.BooleanIdentitiesHold;
    var e, f := Accessed(d, a), End(d, a, cycles);
    RowParts(d, a, cycles);
    SideBoolean(d);
    SideBoolean(f);
    PostSideParts(e, f);
    QuietRowBoolean(e, cycles);
    IoBits(IoRowOf(d, a, cycles));
  }

  lemma IoParts(d: Device, a: Access, cycles: nat)
    requires Ready(d, a, cycles)
    ensures
      var r := IoRowOf(d, a, cycles);
      && r.Shape() && r.BooleanIdentitiesHold() && r.Selects(a) && r.before.Decode() == d.ppu && r.cycles == cycles
      && (Identities(r) <==> Encodable(d.ppu) && Encodable(Accessed(d, a).ppu))
  {
    hide EncodeSide, Packed, Byte, BitsOf, QuietRowOf, Accessed, Mmio.Implemented, Device.AdvanceT, Device.Valid,
         Immediate, PostSide, RequestBits, Bits, IoRow.BooleanIdentitiesHold, StateIdentities, StableRegisters,
         PostPosition, EdgeIdentities, ClockIdentities, Side.PositionRanged, IoRow.Boolean;
    var e, f := Accessed(d, a), End(d, a, cycles);
    RowParts(d, a, cycles);
    IoRowBoolean(d, a, cycles);
    SideRoundTrip(d);
    SideRoundTrip(f);
    SideAccepted(d);
    SideAccepted(f);
    PostAccepted(e, f);
    StableAccepted(d, a, cycles);
    PostPositionAccepted(d, a, cycles);
    EdgesAccepted(d, a, cycles);
    ClockAccepted(d, a, cycles);
    ByteValue(ValueOf(a));
  }

  /**
    * Completeness of the PPU half of a device-access row: for every valid device, access and short length the encoder's
    * row meets the boolean identities, and all others exactly when at both boundaries the LCD is on or LYC is odd. The
    * state between the write and the clock is accepted always.
    */
  lemma AccessRowAcceptedExactly(d: Device, a: Access, cycles: nat)
    requires d.Valid() && Accepts(d, a) && cycles <= 6
    ensures Ready(d, a, cycles)
    ensures
      var r := IoRowOf(d, a, cycles);
      && r.Shape() && r.BooleanIdentitiesHold() && r.Selects(a) && r.before.Decode() == d.ppu && r.cycles == cycles
      && (Identities(r) <==> Encodable(d.ppu) && Encodable(Accessed(d, a).ppu))
  {
    AccessedValid(d, a);
    AdvanceValid(Accessed(d, a), 4 * cycles);
    IoParts(d, a, cycles);
  }
}
