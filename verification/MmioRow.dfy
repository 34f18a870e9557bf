/** The device-access row: the register write lands first, then its STAT edge, then the clocked edges. */
module MmioRow {

  import opened Modulus
  import opened Field
  import opened Gadgets
  import opened Timer
  import opened Devices
  import opened Mmio
  import opened PpuRow
  import opened QuietRow

  /** One typed access: the address selectors and value bits of its row. */
  datatype Access = Read | Joypad | Write(address: int, value: int)

  datatype IoRow = IoRow(
    before: Side, after: Side, cycles: int,
    write: int, sel40: int, sel41: int, sel45: int, sel0f: int, value: seq<int>,
    postLine: seq<int>, postDot: seq<int>,
    vblank: int, below80: int, below252: int, coincidence: int, signal: int,
    coincidencePrefix: seq<int>, inactivePrefix: seq<int>, dotPrefix: seq<int>,
    disable: int, base0: int, base1: int, post1: int, immediate: int, wrap: int,
    statBoundary: int, statGap: seq<int>, statEvent: int, vblankEvent: int, vblankGap: seq<int>,
    beforeIf: seq<int>, afterIf: seq<int>)
  {
    predicate Shape() {
      && before.Shape() && after.Shape() && Felt(cycles) && |value| == 8 && |postLine| == 8 && |postDot| == 9
      && |coincidencePrefix| == 8 && |inactivePrefix| == 4 && |dotPrefix| == 6
      && |statGap| == 9 && |vblankGap| == 17 && |beforeIf| == 5 && |afterIf| == 5
    }

    predicate Boolean() {
      && before.Boolean() && after.Boolean() && Bits(value) && Bits(postLine) && Bits(postDot)
      && Bit(write) && Bit(sel40) && Bit(sel41) && Bit(sel45) && Bit(sel0f)
      && Bit(vblank) && Bit(below80) && Bit(below252) && Bit(coincidence) && Bit(signal)
      && Bits(coincidencePrefix) && Bits(inactivePrefix) && Bits(dotPrefix)
      && Bit(disable) && Bit(base0) && Bit(base1) && Bit(post1) && Bit(immediate) && Bit(wrap)
      && Bit(statBoundary) && Bits(statGap) && Bit(statEvent) && Bit(vblankEvent) && Bits(vblankGap)
      && Bits(beforeIf) && Bits(afterIf)
    }

    function Flags(): seq<int> {
      [write, sel40, sel41, sel45, sel0f, vblank, below80, below252, coincidence, signal]
    }

    function MoreFlags(): seq<int> {
      [disable, base0, base1, post1, immediate, wrap, statBoundary, statEvent, vblankEvent]
    }

    predicate BooleanIdentitiesHold() {
      && before.BooleanIdentitiesHold() && after.BooleanIdentitiesHold()
      && BooleanIdentities(Flags()) && BooleanIdentities(MoreFlags())
      && BooleanIdentities(value) && BooleanIdentities(postLine) && BooleanIdentities(postDot)
      && BooleanIdentities(coincidencePrefix) && BooleanIdentities(inactivePrefix) && BooleanIdentities(dotPrefix)
      && BooleanIdentities(statGap) && BooleanIdentities(vblankGap) && BooleanIdentities(beforeIf)
      && BooleanIdentities(afterIf)
    }

    /** The selectors spell the access. */
    predicate Selects(a: Access) {
      && Shape()
      && write == AsBit(a.Write?)
      && (a.Write? ==> && sel40 == AsBit(a.address == 0xff40) && sel41 == AsBit(a.address == 0xff41)
                       && sel45 == AsBit(a.address == 0xff45) && sel0f == AsBit(a.address == 0xff0f)
                       && a.value == Packed(value))
    }

    /** The PPU columns between the write and the clock: new registers, position kept or cleared. */
    function Post(): Side
      requires Shape()
    {
      Side(after.low, after.high, Packed(postLine), Packed(postDot), postLine, postLine, postDot, postDot,
           vblank, below80, below252, coincidence, signal, coincidencePrefix, inactivePrefix, dotPrefix)
    }
  }

  /** A stable register byte: unchanged, or the masked written value. */
  predicate ByteIdentity(after: int, before: int, selected: int, written: int) {
    Zero((after - before) - selected * (written - before))
  }

  function MaskedStatus(value: seq<int>): int
    requires |value| == 8
  {
    8 * value[3] + 16 * value[4] + 32 * value[5] + 64 * value[6]
  }

  predicate StableRegisters(r: IoRow)
    requires r.Shape()
  {
    && ByteIdentity(Packed(r.after.low[32..40]), Packed(r.before.low[32..40]), r.sel40 * r.write, Packed(r.value))
    && ByteIdentity(Packed(r.after.low[40..48]), Packed(r.before.low[40..48]), r.sel41 * r.write, MaskedStatus(r.value))
    && ByteIdentity(Packed(r.after.high[40..48]), Packed(r.before.high[40..48]), r.sel45 * r.write, Packed(r.value))
  }

  predicate PostPosition(r: IoRow)
    requires r.Shape()
  {
    && Zero(r.disable - r.sel40 * r.write * (1 - r.value[7]))
    && (forall i :: 0 <= i < 8 ==> Zero(r.postLine[i] - r.before.lineBits[i] * (1 - r.disable)))
    && (forall i :: 0 <= i < 9 ==> Zero(r.postDot[i] - r.before.dotBits[i] * (1 - r.disable)))
    && Zero((1 - r.before.low[39]) * r.before.line) && Zero((1 - r.before.low[39]) * r.before.dot)
  }

  predicate EdgeIdentities(r: IoRow)
    requires r.Shape()
  {
    && Zero(r.immediate - r.write * (r.sel40 + r.sel41 + r.sel45) * (1 - r.before.signal) * r.signal)
    && Zero(r.base0 - r.beforeIf[0] - r.sel0f * r.write * (r.value[0] - r.beforeIf[0]))
    && Zero(r.base1 - r.beforeIf[1] - r.sel0f * r.write * (r.value[1] - r.beforeIf[1]))
    && Zero(r.post1 - r.base1 - r.immediate * (1 - r.base1))
    && Zero((r.afterIf[0] - r.base0) - r.vblankEvent * (1 - r.base0))
    && Zero((r.afterIf[1] - r.post1) - r.statEvent * (1 - r.post1))
  }

  predicate ClockIdentities(r: IoRow)
    requires r.Shape()
  {
    var enabled := r.after.low[39];
    && Zero(enabled * (PositionOf(r.after) - PositionOf(r.Post()) - 4 * r.cycles + 70224 * r.wrap))
    && Zero((1 - enabled) * Packed(r.postLine)) && Zero((1 - enabled) * Packed(r.postDot))
    && Zero((1 - enabled) * r.after.line) && Zero((1 - enabled) * r.after.dot)
    && Zero((1 - enabled) * r.wrap)
    && ComparisonIdentities(enabled, 4 * r.cycles, StatDistance(r.Post()), r.statBoundary, Packed(r.statGap))
    && Zero(r.statEvent - r.statBoundary * (1 - r.signal) * r.after.signal)
    && ComparisonIdentities(enabled, PositionOf(r.Post()) + 4 * r.cycles, 65664 + 70224 * r.vblank, r.vblankEvent,
                            Packed(r.vblankGap))
  }

  lemma FlagBits(r: IoRow)
    ensures Bits(r.Flags()) <==>
            && Bit(r.write) && Bit(r.sel40) && Bit(r.sel41) && Bit(r.sel45) && Bit(r.sel0f)
            && Bit(r.vblank) && Bit(r.below80) && Bit(r.below252) && Bit(r.coincidence) && Bit(r.signal)
    ensures Bits(r.MoreFlags()) <==>
            && Bit(r.disable) && Bit(r.base0) && Bit(r.base1) && Bit(r.post1) && Bit(r.immediate) && Bit(r.wrap)
            && Bit(r.statBoundary) && Bit(r.statEvent) && Bit(r.vblankEvent)
  {
    var f, g := r.Flags(), r.MoreFlags();
    assert f[0] == r.write && f[1] == r.sel40 && f[2] == r.sel41 && f[3] == r.sel45 && f[4] == r.sel0f;
    assert f[5] == r.vblank && f[6] == r.below80 && f[7] == r.below252 && f[8] == r.coincidence && f[9] == r.signal;
    assert g[0] == r.disable && g[1] == r.base0 && g[2] == r.base1 && g[3] == r.post1 && g[4] == r.immediate;
    assert g[5] == r.wrap && g[6] == r.statBoundary && g[7] == r.statEvent && g[8] == r.vblankEvent;
  }

  /** The boolean identities of the row say exactly that its columns are bits. */
  lemma IoBits(r: IoRow)
    ensures r.BooleanIdentitiesHold() <==> r.Boolean()
  {
    hide Side.Boolean, Side.BooleanIdentitiesHold, BooleanIdentities, Bits;
    SideBits(r.before);
    SideBits(r.after);
    BooleanColumns(r.Flags());
    BooleanColumns(r.MoreFlags());
    FlagBits(r);
    BooleanColumns(r.value);
    BooleanColumns(r.postLine);
    BooleanColumns(r.postDot);
    BooleanColumns(r.coincidencePrefix);
    BooleanColumns(r.inactivePrefix);
    BooleanColumns(r.dotPrefix);
    BooleanColumns(r.statGap);
    BooleanColumns(r.vblankGap);
    BooleanColumns(r.beforeIf);
    BooleanColumns(r.afterIf);
  }

  lemma PostColumns(r: IoRow)
    requires r.Shape() && r.Boolean()
    ensures r.Post().Shape() && r.Post().Boolean()
  {
    PackedRange(r.postLine);
    PackedRange(r.postDot);
    Pow2Below(8, 9);
    hide Packed, Pow2;
  }

  predicate Identities(r: IoRow)
    requires r.Shape() && r.BooleanIdentitiesHold()
  {
    IoBits(r);
    PostColumns(r);
    && r.before.PositionRanged(1) && r.after.PositionRanged(1)
    && StateIdentities(1, r.before) && StateIdentities(1, r.Post()) && StateIdentities(1, r.after)
    && StableRegisters(r) && PostPosition(r) && EdgeIdentities(r) && ClockIdentities(r)
  }

  /** The device after the access and before the clock. */
  function Accessed(d: Device, a: Access): Device {
    match a
    case Write(address, value) => if WriteMmio(d, address, value).Some? then WriteMmio(d, address, value).value else d
    case _ => d
  }

  // ----- the write -----

  lemma ByteForced(after: int, before: int, selected: int, written: int)
    requires 0 <= after < 256 && 0 <= before < 256 && 0 <= written < 256 && Bit(selected)
    requires ByteIdentity(after, before, selected, written)
    ensures after == if selected == 1 then written else before
  {
    if selected == 1 { ZeroIsZero(after - written); } else { ZeroIsZero(after - before); }
  }

  lemma ByteHolds(after: int, before: int, selected: int, written: int)
    requires Bit(selected) && after == if selected == 1 then written else before
    ensures ByteIdentity(after, before, selected, written)
  {
  }

  lemma BitProduct(x: int, y: int)
    requires Bit(x) && Bit(y)
    ensures x * y == AsBit(x == 1 && y == 1)
  {
  }

  lemma MaskedStatusMeans(value: seq<int>)
    requires |value| == 8 && Bits(value)
    ensures MaskedStatus(value) == Packed(value) / 8 % 16 * 8 && 0 <= MaskedStatus(value) < 128
  {
    Packed8(value);
    hide Packed;
    var low := value[0] + 2 * value[1] + 4 * value[2];
    var mid := value[3] + 2 * value[4] + 4 * value[5] + 8 * value[6];
    assert Bit(value[0]) && Bit(value[1]) && Bit(value[2]) && Bit(value[3]) && Bit(value[4]) && Bit(value[5])
      && Bit(value[6]) && Bit(value[7]);
    DivisionUnique(Packed(value), 8, mid + 16 * value[7], low);
    DivisionUnique(mid + 16 * value[7], 16, value[7], mid);
  }

  lemma ByteRange(b: seq<int>)
    requires |b| == 8 && Bits(b)
    ensures 0 <= Packed(b) < 256 && (Packed(b) >= 128 <==> b[7] == 1) && Packed(b) % 2 == b[0]
    ensures Packed(b) / 2 % 2 == b[1]
  {
    PackedRange(b);
    PowerValues();
    PackedBit(b, 0);
    PackedBit(b, 1);
    PackedBit(b, 7);
  }

  /** Registers after the row are the written ones. */
  lemma RegistersForced(r: IoRow, a: Access)
    requires r.Shape() && r.Boolean() && r.Selects(a) && StableRegisters(r)
    ensures
      var p, q := r.before.Decode(), r.after.Decode();
      && q.lcdControl == (if a.Write? && a.address == 0xff40 then a.value else p.lcdControl)
      && q.statControl == (if a.Write? && a.address == 0xff41 then a.value / 8 % 16 * 8 else p.statControl)
      && q.lineCompare == (if a.Write? && a.address == 0xff45 then a.value else p.lineCompare)
  {
    hide Packed, Zero, ByteIdentity, MaskedStatus;
    ByteRange(r.value);
    ByteRange(r.after.low[32..40]);
    ByteRange(r.before.low[32..40]);
    ByteRange(r.after.low[40..48]);
    ByteRange(r.before.low[40..48]);
    ByteRange(r.after.high[40..48]);
    ByteRange(r.before.high[40..48]);
    MaskedStatusMeans(r.value);
    BitProduct(r.sel40, r.write);
    BitProduct(r.sel41, r.write);
    BitProduct(r.sel45, r.write);
    ByteForced(Packed(r.after.low[32..40]), Packed(r.before.low[32..40]), r.sel40 * r.write, Packed(r.value));
    ByteForced(Packed(r.after.low[40..48]), Packed(r.before.low[40..48]), r.sel41 * r.write, MaskedStatus(r.value));
    ByteForced(Packed(r.after.high[40..48]), Packed(r.before.high[40..48]), r.sel45 * r.write, Packed(r.value));
  }

  lemma EqMasked(x: int, y: int, disable: int)
    requires Bit(x) && Bit(y) && Bit(disable) && Zero(x - y * (1 - disable))
    ensures x == if disable == 1 then 0 else y
  {
    ZeroIsZero(x - y * (1 - disable));
  }

  /** Turning the LCD off clears the position; every other access keeps it. */
  lemma PostPositionForced(r: IoRow, a: Access)
    requires r.Shape() && r.Boolean() && r.Selects(a) && PostPosition(r) && PositionKnown(r.before)
    ensures r.disable == AsBit(a.Write? && a.address == 0xff40 && a.value < 128)
    ensures Packed(r.postLine) == (if r.disable == 1 then 0 else r.before.line)
    ensures Packed(r.postDot) == (if r.disable == 1 then 0 else r.before.dot)
  {
    hide Packed, Zero;
    ByteRange(r.value);
    EqThree(r.disable, r.sel40, r.write, 1 - r.value[7]);
    forall i | 0 <= i < 8 ensures r.postLine[i] == if r.disable == 1 then 0 else r.before.lineBits[i] {
      EqMasked(r.postLine[i], r.before.lineBits[i], r.disable);
    }
    forall i | 0 <= i < 9 ensures r.postDot[i] == if r.disable == 1 then 0 else r.before.dotBits[i] {
      EqMasked(r.postDot[i], r.before.dotBits[i], r.disable);
    }
    if r.disable == 1 {
      ZeroPacked(r.postLine);
      ZeroPacked(r.postDot);
    } else {
      assert r.postLine == r.before.lineBits && r.postDot == r.before.dotBits;
    }
  }

  /** The post-write columns are the PPU state after `write_mmio`. */
  lemma PostForced(r: IoRow, a: Access, d: Device)
    requires r.Shape() && r.Boolean() && r.Selects(a) && StableRegisters(r) && PostPosition(r)
    requires PositionKnown(r.before)
    requires d.Valid() && d.ppu == r.before.Decode()
    ensures 0 <= Packed(r.postLine) <= 153 && 0 <= Packed(r.postDot) <= 455
    ensures r.Post().Shape() && r.Post().Decode() == Accessed(d, a).ppu && Accessed(d, a).ppu.Valid()
    ensures PositionKnown(r.Post())
  {
    hide Packed, StableRegisters, PostPosition, WriteRequest, Bits;
    RegistersForced(r, a);
    PostPositionForced(r, a);
    ByteRange(r.value);
  }

  // ----- interrupt bits -----

  lemma EqImmediate(immediate: int, write: int, a: int, b: int, c: int, before: int, after: int)
    requires Bit(immediate) && Bit(write) && Bit(a) && Bit(b) && Bit(c) && Bit(before) && Bit(after) && Bit(a + b + c)
    requires Zero(immediate - write * (a + b + c) * (1 - before) * after)
    ensures immediate == AsBit(write == 1 && (a == 1 || b == 1 || c == 1) && before == 0 && after == 1)
  {
    EqFour(immediate, write, a + b + c, 1 - before, after);
  }

  lemma EqBase(base: int, before: int, sel: int, write: int, value: int)
    requires Bit(base) && Bit(before) && Bit(sel) && Bit(write) && Bit(value)
    requires Zero(base - before - sel * write * (value - before))
    ensures base == if sel == 1 && write == 1 then value else before
  {
    BitProduct(sel, write);
    ZeroIsZero(base - before - sel * write * (value - before));
  }

  lemma EqOr(x: int, base: int, event: int)
    requires Bit(x) && Bit(base) && Bit(event) && Zero(x - base - event * (1 - base))
    ensures x == AsBit(base == 1 || event == 1)
  {
    ZeroIsZero(x - base - event * (1 - base));
  }

  lemma ValueBits(value: seq<int>, request: seq<int>)
    requires Bits(value) && Bits(request) && |value| == 8 && |request| == 5
    ensures Bit(value[0]) && Bit(value[1]) && Bit(request[0]) && Bit(request[1])
  {
  }

  lemma SignalBit(s: Side)
    requires s.Shape() && s.Boolean()
    ensures Bit(s.signal)
  {
  }

  /** IF bits 0 and 1 after the access, case by case. */
  lemma AccessedRequests(d: Device, a: Access)
    requires a.Write? ==> Implemented(a.address) && 0 <= a.value < 256
    ensures
      var e := Accessed(d, a);
      if a.Write? && a.address == 0xff0f
        then (e.request.vblank <==> a.value % 2 == 1) && (e.request.stat <==> a.value / 2 % 2 == 1)
      else if a.Write? && a.address in {0xff40, 0xff41, 0xff45} then
        e.request.vblank == d.request.vblank
          && e.request.stat == (d.request.stat || (!d.ppu.Signal() && e.ppu.Signal()))
      else e.request.vblank == d.request.vblank && e.request.stat == d.request.stat
  {
    hide Ppu.Signal, WritePpu, WriteSerial, WritePlain, TimerState.Write, JoypadFalls;
  }

  lemma ImmediateStat(r: IoRow, a: Access)
    requires r.Shape() && r.Boolean() && r.Selects(a) && EdgeIdentities(r)
    ensures r.immediate
            == AsBit(a.Write? && a.address in {0xff40, 0xff41, 0xff45} && r.before.signal == 0 && r.signal == 1)
  {
    hide Packed, Zero, Bits;
    if a.Write? {
      EqImmediate(r.immediate, r.write, r.sel40, r.sel41, r.sel45, r.before.signal, r.signal);
    } else {
      NotImmediate(r.immediate, r.write, r.sel40 + r.sel41 + r.sel45, 1 - r.before.signal, r.signal);
    }
  }

  lemma NotImmediate(x: int, write: int, y: int, z: int, w: int)
    requires Bit(x) && write == 0 && Zero(x - write * y * z * w)
    ensures x == 0
  {
    ZeroIsZero(x);
  }

  /** The immediate part: FF0F overwrites, a PPU write may raise STAT. */
  lemma ImmediateForced(r: IoRow, a: Access, d: Device)
    requires r.Shape() && r.Boolean() && r.Selects(a) && EdgeIdentities(r)
    requires a.Write? ==> Implemented(a.address)
    requires r.before.signal == AsBit(d.ppu.Signal()) && r.signal == AsBit(Accessed(d, a).ppu.Signal())
    requires d.request.vblank <==> r.beforeIf[0] == 1
    requires d.request.stat <==> r.beforeIf[1] == 1
    ensures r.base0 == AsBit(Accessed(d, a).request.vblank) && r.post1 == AsBit(Accessed(d, a).request.stat)
  {
    hide Packed, Zero, Ppu.Signal, Accessed, Bits, Side.Boolean, Side.Shape;
    ByteRange(r.value);
    AccessedRequests(d, a);
    assert Bit(r.value[0]) && Bit(r.value[1]) && Bit(r.beforeIf[0])
      && Bit(r.beforeIf[1]) by { ValueBits(r.value, r.beforeIf); }
    SignalBit(r.before);
    EqBase(r.base0, r.beforeIf[0], r.sel0f, r.write, r.value[0]);
    EqBase(r.base1, r.beforeIf[1], r.sel0f, r.write, r.value[1]);
    EqOr(r.post1, r.base1, r.immediate);
    ImmediateStat(r, a);
  }

  // ----- the clock -----

  lemma ClockedEquation(r: IoRow)
    requires r.Shape() && r.Boolean() && ClockIdentities(r) && 0 <= r.cycles <= 20
    requires PositionKnown(r.after) && PositionKnown(r.Post())
    ensures r.after.low[39] == 1 ==> PositionOf(r.after) == PositionOf(r.Post()) + 4 * r.cycles - 70224 * r.wrap
    ensures r.after.low[39] == 0 ==> r.after.line == 0 && r.after.dot == 0
  {
    hide Packed, Zero, IoRow.Post, ComparisonIdentities, StatDistance;
    if r.after.low[39] == 1 {
      EqPosition(r.after.low[39], PositionOf(r.after), PositionOf(r.Post()), r.cycles, r.wrap);
    } else {
      EqCleared(r.after.low[39], r.after.line);
      EqCleared(r.after.low[39], r.after.dot);
    }
  }

  lemma EqCleared(enabled: int, x: int)
    requires enabled == 0 && 0 <= x < 512 && Zero((1 - enabled) * x)
    ensures x == 0
  {
    ZeroIsZero(x);
  }

  /** The position moves on from the post-write one, or stays cleared while the LCD is off. */
  lemma ClockForced(r: IoRow)
    requires r.Shape() && r.Boolean() && ClockIdentities(r) && 0 <= r.cycles <= 20
    requires PositionKnown(r.after) && PositionKnown(r.Post()) && r.Post().Shape() && r.Post().Boolean()
    requires r.Post().Decode().Valid()
    ensures r.after.Decode() == PpuTicks(r.Post().Decode(), 4 * r.cycles)
  {
    hide Packed, Zero, PpuTicks, ClockIdentities, Bits;
    ClockedEquation(r);
    RegisterBits(r.after);
    var p, q := r.Post().Decode(), r.after.Decode();
    if p.Enabled() {
      PositionAdvances(p, 4 * r.cycles);
      FrameRemainder(p.Position() + 4 * r.cycles);
      PositionInjective(q, PpuTicks(p, 4 * r.cycles));
    } else {
      DisabledPpu(p, 4 * r.cycles);
    }
  }

  lemma VBlankEventForced(r: IoRow)
    requires r.Shape() && r.Boolean() && ClockIdentities(r) && 0 <= r.cycles <= 20
    requires PositionKnown(r.Post()) && r.Post().Shape() && r.Post().Boolean() && r.Post().Decode().Valid()
    requires StateIdentities(1, r.Post())
    ensures r.vblankEvent == AsBit(VBlankRaised(r.Post().Decode(), 4 * r.cycles))
  {
    hide Packed, Zero, VBlankRaised, StateIdentities, Bits, ComparisonIdentities, Side.Decode, Ppu.Signal, StatDistance;
    var s := r.Post();
    RegisterBits(s);
    StateSound(s);
    GapRange(r.vblankGap);
    SamePosition(s);
    var p := s.Decode();
    if p.Enabled() {
      EntersAtPosition(p);
      VBlankExact(p, 4 * r.cycles);
      ComparisonSound(PositionOf(s) + 4 * r.cycles, 65664 + 70224 * r.vblank, r.vblankEvent, Packed(r.vblankGap));
    } else {
      DisabledPpu(p, 4 * r.cycles);
      ComparisonInactive(PositionOf(s) + 4 * r.cycles, 65664 + 70224 * r.vblank, r.vblankEvent, Packed(r.vblankGap));
    }
  }

  lemma StatEventForced(r: IoRow)
    requires r.Shape() && r.Boolean() && ClockIdentities(r) && 0 <= r.cycles <= 20 && PositionKnown(r.after)
    requires StateIdentities(1, r.after)
    requires PositionKnown(r.Post()) && r.Post().Shape() && r.Post().Boolean() && r.Post().Decode().Valid()
    requires StateIdentities(1, r.Post())
    ensures r.statEvent == AsBit(StatRaised(r.Post().Decode(), 4 * r.cycles))
  {
    hide Packed, Zero, StatRaised, PpuTicks, StateIdentities, Bits, ComparisonIdentities, Side.Decode, Ppu.Signal,
         StatDistance;
    var s := r.Post();
    RegisterBits(s);
    StateSound(s);
    StateSound(r.after);
    ClockForced(r);
    GapRange(r.statGap);
    SamePosition(s);
    EqStatEvent(r.statEvent, r.statBoundary, r.signal, r.after.signal);
    var p := s.Decode();
    if p.Enabled() {
      StatDistanceMeans(s);
      StatExact(p, 4 * r.cycles);
      ComparisonSound(4 * r.cycles, StatDistance(s), r.statBoundary, Packed(r.statGap));
    } else {
      DisabledPpu(p, 4 * r.cycles);
      ComparisonInactive(4 * r.cycles, StatDistance(s), r.statBoundary, Packed(r.statGap));
    }
  }

  lemma ClockedRequests(d: Device, c: nat)
    requires c <= 63
    ensures d.AdvanceM(c).ppu == PpuTicks(d.ppu, 4 * c)
    ensures d.AdvanceM(c).request.vblank == (d.request.vblank || VBlankRaised(d.ppu, 4 * c))
    ensures d.AdvanceM(c).request.stat == (d.request.stat || StatRaised(d.ppu, 4 * c))
  {
    hide PpuTicks, VBlankRaised, StatRaised, Ticks, Requested;
  }

  /** What the relation leaves of the row once its post-write columns are known. */
  lemma PostKnown(r: IoRow, a: Access, d: Device)
    requires r.Shape() && r.BooleanIdentitiesHold() && r.Selects(a) && Identities(r)
    requires d.Valid() && d.ppu == r.before.Decode()
    ensures PositionKnown(r.before) && PositionKnown(r.after) && PositionKnown(r.Post())
    ensures r.Post().Shape() && r.Post().Boolean() && r.Post().Decode() == Accessed(d, a).ppu
    ensures Accessed(d, a).ppu.Valid()
    ensures r.before.signal == AsBit(d.ppu.Signal()) && r.signal == AsBit(Accessed(d, a).ppu.Signal())
  {
    hide IoRow.BooleanIdentitiesHold, Packed, Zero, StateIdentities, StableRegisters, PostPosition, EdgeIdentities,
         ClockIdentities, Accessed, Side.PositionRanged, Side.Decode, Ppu.Signal, Ppu.Valid, Bits, PositionKnown;
    IoBits(r);
    PositionSound(r.before);
    PositionSound(r.after);
    PostForced(r, a, d);
    PostColumns(r);
    StateSound(r.before);
    StateSound(r.Post());
  }

  /** The device-access row admits only `write_mmio` followed by the clock: position and IF bits 0 and 1. */
  lemma WriteBeforeClockForced(r: IoRow, a: Access, d: Device)
    requires r.Shape() && r.BooleanIdentitiesHold() && r.Selects(a) && Identities(r) && 0 <= r.cycles <= 20
    requires a.Write? ==> Implemented(a.address)
    requires d.Valid() && d.ppu == r.before.Decode()
    requires (d.request.vblank <==> r.beforeIf[0] == 1) && (d.request.stat <==> r.beforeIf[1] == 1)
    ensures r.after.Decode() == Accessed(d, a).AdvanceM(r.cycles).ppu
    ensures r.afterIf[0] == 1 <==> Accessed(d, a).AdvanceM(r.cycles).request.vblank
    ensures r.afterIf[1] == 1 <==> Accessed(d, a).AdvanceM(r.cycles).request.stat
  {
    hide IoRow.BooleanIdentitiesHold, Packed, Zero, StateIdentities, StableRegisters, PostPosition, ClockIdentities,
         Accessed, Side.PositionRanged, Side.Decode, Ppu.Signal, Ppu.Valid, Device.AdvanceM, PpuTicks, VBlankRaised,
         StatRaised, IoRow.Selects, PositionKnown, Device.Valid;
    IoBits(r);
    PostKnown(r, a, d);
    ImmediateForced(r, a, d);
    ClockForced(r);
    VBlankEventForced(r);
    StatEventForced(r);
    ClockedRequests(Accessed(d, a), r.cycles);
    EqOr(r.afterIf[0], r.base0, r.vblankEvent);
    EqOr(r.afterIf[1], r.post1, r.statEvent);
  }
}
