/** The byte a device access reports: read values and overwritten values are the native visible registers. */
module TupleRow {

  import opened Wrappers
  import opened Modulus
  import opened Field
  import opened Devices
  import opened Mmio
  import opened PpuRow
  import opened SerialRow

  /** Event columns of one access: kind selectors, one address selector, reported and overwritten byte. */
  datatype Tuple = Tuple(read: int, write: int, selected: int, value: int, before: int) {
    predicate Shape() { Bit(read) && Bit(write) && Bit(selected) && Felt(value) && Felt(before) }
  }

  /** Boundary columns the tuples read: the PPU side, divider bits, IF and IE scalars. */
  datatype Boundary = Boundary(side: Side, div: seq<int>, request: int, enable: int) {
    predicate Shape() { side.Shape() && side.Boolean() && |div| == 16 && Bits(div) }

    /** They are those of `d`. */
    predicate Carries(d: Device)
      requires Shape()
    {
      && d.Valid() && d.ppu == side.Decode() && d.serial == SerialOf(side) && d.plain == PlainOf(side)
      && d.timer.modulo == Packed(side.low[16..24]) && d.timer.control == Packed(side.low[24..32])
      && d.timer.rawDiv == Packed(div) && request == d.request.Byte() && enable == d.enable.Byte()
    }
  }

  /** Mode bits from the mode columns. */
  function ModeColumn(s: Side): int { s.vblank + (1 - s.vblank) * s.below252 * (3 - s.below80) }

  function StatusColumn(s: Side): int
    requires s.Shape()
  {
    0x80 + 4 * s.coincidence + ModeColumn(s) + 8 * s.low[43] + 16 * s.low[44] + 32 * s.low[45] + 64 * s.low[46]
  }

  /** The visible byte as each relation writes it; registers outside this table are constrained elsewhere. */
  function VisibleColumn(b: Boundary, address: int): Option<int>
    requires b.Shape()
  {
    var low, high := b.side.low, b.side.high;
    match address
    case 0xff01 => Some(Packed(low[0..8]))
    case 0xff02 => Some(Packed(low[8..16]))
    case 0xff04 => Some(Packed(b.div[8..16]))
    case 0xff06 => Some(Packed(low[16..24]))
    case 0xff07 => Some(0xf8 + Packed(low[24..32]))
    case 0xff0f => Some(0xe0 + b.request)
    case 0xff40 => Some(Packed(low[32..40]))
    case 0xff41 => Some(StatusColumn(b.side))
    case 0xff42 => Some(Packed(low[48..56]))
    case 0xff43 => Some(Packed(low[56..64]))
    case 0xff44 => Some(b.side.line)
    case 0xff45 => Some(Packed(high[40..48]))
    case 0xff47 => Some(Packed(high[0..8]))
    case 0xff48 => Some(Packed(high[8..16]))
    case 0xff49 => Some(Packed(high[16..24]))
    case 0xff4a => Some(Packed(high[24..32]))
    case 0xff4b => Some(Packed(high[32..40]))
    case 0xffff => Some(b.enable)
    case _ => None
  }

  predicate TupleIdentities(t: Tuple, visible: int) {
    Zero(t.selected * t.read * (t.value - visible)) && Zero(t.selected * t.write * (t.before - visible))
  }

  // ----- the status byte -----

  lemma StatusSources(b: seq<int>)
    requires |b| == 8 && Bits(b) && Packed(b) % 8 == 0 && Packed(b) < 128
    ensures Packed(b) == 8 * b[3] + 16 * b[4] + 32 * b[5] + 64 * b[6]
  {
    Packed8(b);
    hide Packed;
    assert Bit(b[0]) && Bit(b[1]) && Bit(b[2]) && Bit(b[3]) && Bit(b[4]) && Bit(b[5]) && Bit(b[6]) && Bit(b[7]);
    assert b[7] == 0;
    assert Packed(b) == 8 * (b[3] + 2 * b[4] + 4 * b[5] + 8 * b[6]) + (b[0] + 2 * b[1] + 4 * b[2]);
  }

  lemma ModeMeans(s: Side)
    requires s.Shape() && s.Decode().Valid()
    requires s.vblank == AsBit(s.Decode().Enabled() && s.line >= 144)
    requires s.below80 == AsBit(s.Decode().Enabled() && s.dot < 80)
    requires s.below252 == AsBit(s.Decode().Enabled() && s.dot < 252)
    ensures ModeColumn(s) == s.Decode().Mode()
  {
    hide Packed;
  }

  lemma StatusMeans(s: Side)
    requires s.Shape() && s.Boolean() && s.PositionRanged(1) && StateIdentities(1, s) && s.Decode().Valid()
    ensures StatusColumn(s) == VisibleStatus(s.Decode())
  {
    hide Packed, ModeIdentities, SignalIdentities, CoincidenceIdentities, Side.PositionRanged, Ppu.Signal, Ppu.Mode,
         ModeColumn;
    PositionSound(s);
    StateSound(s);
    CoincidenceSound(s);
    ModeMeans(s);
    var c := s.low[40..48];
    assert c[3] == s.low[43] && c[4] == s.low[44] && c[5] == s.low[45] && c[6] == s.low[46];
    StatusSources(c);
  }

  lemma HighByte(div: seq<int>)
    requires |div| == 16 && Bits(div)
    ensures Packed(div[8..16]) == Packed(div) / 256
  {
    hide Packed, Pow2;
    PackedSplit(div, 8);
    PackedRange(div[..8]);
    PowerValues();
    assert div[8..] == div[8..16];
    DivisionUnique(Packed(div), 256, Packed(div[8..16]), Packed(div[..8]));
  }

  /** Every column of the table is the native visible byte. */
  lemma VisibleMeans(b: Boundary, d: Device, address: int)
    requires b.Shape() && b.Carries(d) && b.side.PositionRanged(1) && StateIdentities(1, b.side)
    requires VisibleColumn(b, address).Some?
    ensures ReadMmio(d, address) == VisibleColumn(b, address) && 0 <= VisibleColumn(b, address).value < 256
  {
    hide Packed, StateIdentities, Side.PositionRanged, StatusColumn, VisibleStatus;
    StatusMeans(b.side);
    HighByte(b.div);
    StatusRange(d.ppu);
    LinesRange(d.request);
    LinesRange(d.enable);
  }

  lemma StatusRange(p: Ppu)
    requires p.Valid()
    ensures 0 <= VisibleStatus(p) < 256
  {
  }

  lemma LinesRange(l: Lines)
    ensures 0 <= l.Byte() < 32
  {
  }

  lemma EqTuple(gate: int, x: int, y: int)
    requires Felt(x) && 0 <= y < 256 && gate == 1
    ensures Zero(gate * (x - y)) <==> x == y
  {
    if Zero(gate * (x - y)) { SameColumn(x, y); } else { ZeroHolds(0); }
  }

  lemma ZeroGate(gate: int, x: int)
    requires gate == 0
    ensures Zero(gate * x)
  {
    ZeroHolds(0);
  }

  /**
    * The tuple identities of an access hold exactly when a read reports the byte the native register shows, and a write
    * reports the byte it overwrites.
    */
  lemma TupleExactly(t: Tuple, b: Boundary, d: Device, address: int)
    requires t.Shape() && b.Shape() && b.Carries(d) && b.side.PositionRanged(1) && StateIdentities(1, b.side)
    requires VisibleColumn(b, address).Some? && t.selected == 1
    ensures ReadMmio(d, address).Some?
    ensures TupleIdentities(t, VisibleColumn(b, address).value) <==>
            && (t.read == 1 ==> t.value == ReadMmio(d, address).value)
            && (t.write == 1 ==> t.before == ReadMmio(d, address).value)
  {
    hide VisibleColumn, StateIdentities, Side.PositionRanged, Boundary.Carries, ReadMmio, Zero;
    VisibleMeans(b, d, address);
    var v := VisibleColumn(b, address).value;
    if t.read == 1 { EqTuple(t.selected * t.read, t.value, v); } else { ZeroGate(t.selected * t.read, t.value - v); }
    var gate := t.selected * t.write;
    if t.write == 1 { EqTuple(gate, t.before, v); } else { ZeroGate(gate, t.before - v); }
  }
}
