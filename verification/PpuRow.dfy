/** The quiet-row PPU relation: position with a wrap bit, STAT line columns, VBlank and STAT interval events. */
module PpuRow {

  import opened Field
  import opened Gadgets
  import opened Devices

  /** Columns of one boundary: register-pack bits, ranged position, and the derived STAT state. */
  datatype Side = Side(
    low: seq<int>, high: seq<int>, line: int, dot: int,
    lineBits: seq<int>, lineSlack: seq<int>, dotBits: seq<int>, dotSlack: seq<int>,
    vblank: int, below80: int, below252: int, coincidence: int, signal: int,
    coincidencePrefix: seq<int>, inactivePrefix: seq<int>, dotPrefix: seq<int>)
  {
    predicate Shape() {
      && |low| == 64 && |high| == 64 && |lineBits| == 8 && |lineSlack| == 8 && |dotBits| == 9 && |dotSlack| == 9
      && |coincidencePrefix| == 8 && |inactivePrefix| == 4 && |dotPrefix| == 6 && Felt(line) && Felt(dot)
    }

    predicate BooleanIdentitiesHold() {
      && BooleanIdentities(low) && BooleanIdentities(high)
      && BooleanIdentities(lineBits) && BooleanIdentities(lineSlack) && BooleanIdentities(dotBits)
      && BooleanIdentities(dotSlack)
      && BooleanIdentities([vblank, below80, below252, coincidence, signal])
      && BooleanIdentities(coincidencePrefix) && BooleanIdentities(inactivePrefix) && BooleanIdentities(dotPrefix)
    }

    predicate Boolean() {
      && Bits(low) && Bits(high) && Bits(lineBits) && Bits(lineSlack) && Bits(dotBits) && Bits(dotSlack)
      && Bit(vblank) && Bit(below80) && Bit(below252) && Bit(coincidence) && Bit(signal)
      && Bits(coincidencePrefix) && Bits(inactivePrefix) && Bits(dotPrefix)
    }

    /** The PPU state the boundary columns carry. */
    function Decode(): Ppu
      requires Shape()
    {
      Ppu(Packed(low[32..40]), Packed(low[40..48]), Packed(high[40..48]), line, dot)
    }

    predicate PositionRanged(owner: int) {
      RangedIdentities(owner, line, lineBits, lineSlack, 153) && RangedIdentities(owner, dot, dotBits, dotSlack, 455)
    }
  }

  /** The registers that the clock does not touch. */
  function PlainOf(s: Side): Plain
    requires s.Shape()
  {
    Plain(Packed(s.low[48..56]), Packed(s.low[56..64]), Packed(s.high[0..8]), Packed(s.high[8..16]),
          Packed(s.high[16..24]), Packed(s.high[24..32]), Packed(s.high[32..40]))
  }

  function Or(x: int, y: int): int { x + y - x * y }

  function EqualBits(line: seq<int>, compare: seq<int>): (s: seq<int>)
    requires |line| == |compare|
    ensures |s| == |line|
  {
    seq(|line|, i requires 0 <= i < |line| => 1 - line[i] - compare[i] + 2 * line[i] * compare[i])
  }

  // Mode flags from the position bits.

  predicate VBlankIdentity(s: Side)
    requires s.Shape()
  {
    Zero(s.vblank - s.low[39] * s.lineBits[7] * s.lineBits[4])
  }

  predicate Below80Identity(s: Side)
    requires s.Shape()
  {
    var above79 := s.dotBits[6] * Or(s.dotBits[5], s.dotBits[4]);
    Zero(s.below80 - s.low[39] * (1 - s.dotBits[8]) * (1 - s.dotBits[7]) * (1 - above79))
  }

  predicate Below252Identity(s: Side)
    requires s.Shape()
  {
    Zero(s.below252 - s.low[39] * (1 - s.dotBits[8]) * (1 - s.dotPrefix[5]))
  }

  predicate ModeIdentities(s: Side)
    requires s.Shape()
  {
    && VBlankIdentity(s)
    && Below80Identity(s)
    && ChainIdentities(1, s.dotPrefix, s.dotBits[2..8])
    && Below252Identity(s)
  }

  predicate CoincidenceIdentities(owner: int, s: Side)
    requires s.Shape()
  {
    ChainIdentities(owner, s.coincidencePrefix, EqualBits(s.lineBits, s.high[40..48]))
    && Zero(s.coincidence - s.coincidencePrefix[7])
  }

  /** One minus each STAT source. */
  function IdleSources(s: Side): (r: seq<int>)
    requires s.Shape()
    ensures |r| == 4
  {
    [1 - s.low[43] * (1 - s.vblank) * (1 - s.below252), 1 - s.low[44] * s.vblank,
     1 - s.low[45] * (1 - s.vblank) * s.below80, 1 - s.low[46] * s.coincidence]
  }

  predicate SignalIdentities(s: Side)
    requires s.Shape()
  {
    ChainIdentities(s.low[39], s.inactivePrefix, IdleSources(s)) && Zero(s.signal - s.low[39] + s.inactivePrefix[3])
  }

  predicate StateIdentities(owner: int, s: Side)
    requires s.Shape()
  {
    ModeIdentities(s) && CoincidenceIdentities(owner, s) && SignalIdentities(s)
  }

  // ----- the derived columns are the PPU's own mode and STAT line -----

  lemma SideBits(s: Side)
    ensures s.BooleanIdentitiesHold() <==> s.Boolean()
  {
    hide BooleanIdentities, Bits;
    BooleanColumns(s.low);
    BooleanColumns(s.high);
    BooleanColumns(s.lineBits);
    BooleanColumns(s.lineSlack);
    BooleanColumns(s.dotBits);
    BooleanColumns(s.dotSlack);
    BooleanColumns(s.coincidencePrefix);
    BooleanColumns(s.inactivePrefix);
    BooleanColumns(s.dotPrefix);
    var flags := [s.vblank, s.below80, s.below252, s.coincidence, s.signal];
    BooleanColumns(flags);
    FiveBits(s.vblank, s.below80, s.below252, s.coincidence, s.signal);
  }

  lemma FiveBits(a: int, b: int, c: int, d: int, e: int)
    ensures Bits([a, b, c, d, e]) <==> Bit(a) && Bit(b) && Bit(c) && Bit(d) && Bit(e)
  {
    var s := [a, b, c, d, e];
    assert s[0] == a && s[1] == b && s[2] == c && s[3] == d && s[4] == e;
  }

  /** Line and dot are in range and spelled by their bits. */
  predicate PositionKnown(s: Side) {
    s.line == Packed(s.lineBits) && 0 <= s.line <= 153 && s.dot == Packed(s.dotBits) && 0 <= s.dot <= 455
  }

  lemma PositionSound(s: Side)
    requires s.Shape() && s.Boolean() && s.PositionRanged(1)
    ensures PositionKnown(s)
  {
    RangedSound(s.line, s.lineBits, s.lineSlack, 153);
    RangedSound(s.dot, s.dotBits, s.dotSlack, 455);
  }

  lemma EqThree(b: int, x: int, y: int, z: int)
    requires Bit(b) && Bit(x) && Bit(y) && Bit(z) && Zero(b - x * y * z)
    ensures b == AsBit(x == 1 && y == 1 && z == 1)
  {
    ZeroIsZero(b - x * y * z);
  }

  lemma EqFour(b: int, w: int, x: int, y: int, z: int)
    requires Bit(b) && Bit(w) && Bit(x) && Bit(y) && Bit(z) && Zero(b - w * x * y * z)
    ensures b == AsBit(w == 1 && x == 1 && y == 1 && z == 1)
  {
    if w == 0 || x == 0 { assert w * x * y * z == 0; } else { assert w * x * y * z == y * z; }
    ZeroIsZero(b - w * x * y * z);
  }

  lemma Above79(d6: int, d5: int, d4: int)
    requires Bit(d6) && Bit(d5) && Bit(d4)
    ensures d6 * Or(d5, d4) == AsBit(d6 == 1 && (d5 == 1 || d4 == 1))
  {
  }

  /** Line 144 and up is bits seven and four, among 0..153. */
  lemma LineThreshold(line: int, b: seq<int>)
    requires |b| == 8 && Bits(b) && line == Packed(b) <= 153
    ensures line >= 144 <==> b[7] == 1 && b[4] == 1
  {
    Packed8(b);
    hide Packed;
    assert Bit(b[0]) && Bit(b[1]) && Bit(b[2]) && Bit(b[3]) && Bit(b[4]) && Bit(b[5]) && Bit(b[6]) && Bit(b[7]);
  }

  lemma DotThresholds(dot: int, b: seq<int>)
    requires |b| == 9 && Bits(b) && dot == Packed(b)
    ensures dot < 80 <==> b[8] == 0 && b[7] == 0 && !(b[6] == 1 && (b[5] == 1 || b[4] == 1))
    ensures dot < 252 <==> b[8] == 0 && !(b[2] == 1 && b[3] == 1 && b[4] == 1 && b[5] == 1 && b[6] == 1 && b[7] == 1)
  {
    Packed9(b);
    hide Packed;
    assert Bit(b[0]) && Bit(b[1]) && Bit(b[2]) && Bit(b[3]) && Bit(b[4]) && Bit(b[5]) && Bit(b[6]) && Bit(b[7])
      && Bit(b[8]);
  }

  lemma ModeSound(s: Side)
    requires s.Shape() && s.Boolean() && PositionKnown(s) && ModeIdentities(s)
    ensures s.vblank == AsBit(s.low[39] == 1 && s.line >= 144)
    ensures s.below80 == AsBit(s.low[39] == 1 && s.dot < 80)
    ensures s.below252 == AsBit(s.low[39] == 1 && s.dot < 252)
  {
    hide Packed, Zero, RangedIdentities, VBlankIdentity, Below80Identity, Below252Identity, ChainIdentities;
    LineThreshold(s.line, s.lineBits);
    DotThresholds(s.dot, s.dotBits);
    VBlankForced(s);
    Below80Forced(s);
    DotHigh(s);
    Below252Forced(s);
  }

  lemma VBlankForced(s: Side)
    requires s.Shape() && s.Boolean() && VBlankIdentity(s)
    ensures s.vblank == AsBit(s.low[39] == 1 && s.lineBits[7] == 1 && s.lineBits[4] == 1)
  {
    EqThree(s.vblank, s.low[39], s.lineBits[7], s.lineBits[4]);
  }

  lemma Below80Forced(s: Side)
    requires s.Shape() && s.Boolean() && Below80Identity(s)
    ensures s.below80 == AsBit(s.low[39] == 1 && s.dotBits[8] == 0 && s.dotBits[7] == 0
                               && !(s.dotBits[6] == 1 && (s.dotBits[5] == 1 || s.dotBits[4] == 1)))
  {
    hide Zero, Or;
    Above79(s.dotBits[6], s.dotBits[5], s.dotBits[4]);
    EqFour(s.below80, s.low[39], 1 - s.dotBits[8], 1 - s.dotBits[7], 1 - s.dotBits[6] * Or(s.dotBits[5], s.dotBits[4]));
  }

  lemma Below252Forced(s: Side)
    requires s.Shape() && s.Boolean() && Below252Identity(s)
    ensures s.below252 == AsBit(s.low[39] == 1 && s.dotBits[8] == 0 && s.dotPrefix[5] == 0)
  {
    EqThree(s.below252, s.low[39], 1 - s.dotBits[8], 1 - s.dotPrefix[5]);
  }

  lemma DotHigh(s: Side)
    requires s.Shape() && s.Boolean() && ModeIdentities(s)
    ensures s.dotPrefix[5] == AsBit(s.dotBits[2] == 1 && s.dotBits[3] == 1 && s.dotBits[4] == 1 && s.dotBits[5] == 1
                                    && s.dotBits[6] == 1 && s.dotBits[7] == 1)
  {
    hide Zero, Packed, VBlankIdentity, Below80Identity, Below252Identity;
    var f := s.dotBits[2..8];
    assert f[0] == s.dotBits[2] && f[1] == s.dotBits[3] && f[2] == s.dotBits[4] && f[3] == s.dotBits[5]
           && f[4] == s.dotBits[6] && f[5] == s.dotBits[7];
    Gadgets.ChainSound(1, s.dotPrefix, f, 6);
  }

  lemma EqualBitsMean(line: seq<int>, compare: seq<int>)
    requires |line| == |compare| && Bits(line) && Bits(compare)
    ensures Bits(EqualBits(line, compare))
    ensures (forall i :: 0 <= i < |line| ==> EqualBits(line, compare)[i] == 1) <==> line == compare
  {
    var equal := EqualBits(line, compare);
    assert forall i :: 0 <= i < |line| ==> Bit(equal[i]) && (equal[i] == 1 <==> line[i] == compare[i]);
  }

  lemma CoincidenceSound(s: Side)
    requires s.Shape() && s.Boolean() && PositionKnown(s) && CoincidenceIdentities(1, s)
    ensures s.coincidence == AsBit(s.line == Packed(s.high[40..48]))
  {
    hide Packed, Zero, RangedIdentities, ChainIdentities, EqualBits;
    var compare := s.high[40..48];
    var equal := EqualBits(s.lineBits, compare);
    EqualBitsMean(s.lineBits, compare);
    Gadgets.ChainSound(1, s.coincidencePrefix, equal, 8);
    SameColumn(s.coincidence, s.coincidencePrefix[7]);
    PackedInjective(s.lineBits, compare);
  }

  lemma IdleSourceBits(s: Side)
    requires s.Shape() && s.Boolean()
    ensures Bits(IdleSources(s))
    ensures IdleSources(s)[0] == 1 <==> !(s.low[43] == 1 && s.vblank == 0 && s.below252 == 0)
    ensures IdleSources(s)[1] == 1 <==> !(s.low[44] == 1 && s.vblank == 1)
    ensures IdleSources(s)[2] == 1 <==> !(s.low[45] == 1 && s.vblank == 0 && s.below80 == 1)
    ensures IdleSources(s)[3] == 1 <==> !(s.low[46] == 1 && s.coincidence == 1)
  {
  }

  lemma EqSignal(signal: int, enabled: int, prefix: int)
    requires Bit(signal) && Bit(enabled) && Bit(prefix) && Zero(signal - enabled + prefix)
    ensures signal == enabled - prefix
  {
    ZeroIsZero(signal - enabled + prefix);
  }

  lemma SignalColumn(s: Side)
    requires s.Shape() && s.Boolean() && SignalIdentities(s)
    ensures s.signal == AsBit(
      && s.low[39] == 1
      && (|| (s.low[43] == 1 && s.vblank == 0 && s.below252 == 0) || (s.low[44] == 1 && s.vblank == 1)
          || (s.low[45] == 1 && s.vblank == 0 && s.below80 == 1) || (s.low[46] == 1 && s.coincidence == 1)))
  {
    hide Zero, IdleSources;
    var idle := IdleSources(s);
    IdleSourceBits(s);
    Gadgets.ChainSound(s.low[39], s.inactivePrefix, idle, 4);
    assert (forall i :: 0 <= i < 4 ==> idle[i] == 1) <==> idle[0] == 1 && idle[1] == 1 && idle[2] == 1 && idle[3] == 1;
    EqSignal(s.signal, s.low[39], s.inactivePrefix[3]);
  }

  /** Register bytes carry the bits the relation reads. */
  lemma RegisterBits(s: Side)
    requires s.Shape() && s.Boolean()
    ensures Bit(s.low[39]) && (s.Decode().Enabled() <==> s.low[39] == 1)
    ensures s.Decode().statControl / 8 % 2 == s.low[43] && s.Decode().statControl / 16 % 2 == s.low[44]
    ensures s.Decode().statControl / 32 % 2 == s.low[45] && s.Decode().statControl / 64 % 2 == s.low[46]
    ensures 0 <= s.Decode().lcdControl < 256 && 0 <= s.Decode().statControl < 256 && 0 <= s.Decode().lineCompare < 256
  {
    hide Packed;
    var control, status := s.low[32..40], s.low[40..48];
    ByteBit(control, 7, 128);
    PackedRange(control);
    PackedRange(status);
    PackedRange(s.high[40..48]);
    PowerValues();
    ByteBit(status, 3, 8);
    ByteBit(status, 4, 16);
    ByteBit(status, 5, 32);
    ByteBit(status, 6, 64);
  }

  lemma ByteBit(byte: seq<int>, k: nat, w: int)
    requires |byte| == 8 && Bits(byte) && k < 8 && w == Pow2(k)
    ensures w > 0 && Packed(byte) / w % 2 == byte[k]
  {
    PackedBit(byte, k);
  }

  /** The signal column is the PPU's composite STAT line. */
  lemma StateSound(s: Side)
    requires s.Shape() && s.Boolean() && PositionKnown(s) && StateIdentities(1, s)
    ensures s.signal == AsBit(s.Decode().Signal())
    ensures s.vblank == AsBit(s.Decode().Enabled() && s.line >= 144)
    ensures s.below80 == AsBit(s.Decode().Enabled() && s.dot < 80)
    ensures s.below252 == AsBit(s.Decode().Enabled() && s.dot < 252)
  {
    hide Packed, Zero, RangedIdentities, ModeIdentities, CoincidenceIdentities, SignalIdentities, Bits,
         Side.PositionRanged;
    ModeSound(s);
    CoincidenceSound(s);
    SignalColumn(s);
    RegisterBits(s);
  }
}
