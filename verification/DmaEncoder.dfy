/** Honest DMA rows: the encoder's columns satisfy the relation for every cursor. */
module DmaEncoder {

  import opened Field
  import opened Gadgets
  import opened Devices
  import opened Encoding
  import opened DmaRow

  // ----- the DMA cursor -----

  function EncodeCursor(d: Dma): (c: Cursor)
    ensures c.Shape()
  {
    var slack := BitsOf(160 - d.index, 8);
    Cursor(BitsOf(d.sourceHigh, 8) + BitsOf(d.index, 8) + [AsBit(d.active)] + Zeros(7) + BitsOf(d.owed, 8),
           slack, BitsOf(6 - d.owed, 3), Prefix(true, ClearFlags(slack)))
  }

  lemma EncodedCursorBits(d: Dma)
    ensures EncodeCursor(d).Boolean()
  {
    hide Bits, BitsOf, Zeros, Prefix;
    var a, b, c, e := BitsOf(d.sourceHigh, 8), BitsOf(d.index, 8), [AsBit(d.active)], BitsOf(d.owed, 8);
    OneBit(d.active);
    JoinBits(a, b);
    JoinBits(a + b, c);
    JoinBits(a + b + c, Zeros(7));
    JoinBits(a + b + c + Zeros(7), e);
  }

  lemma CursorParts(d: Dma)
    ensures
      var c := EncodeCursor(d);
      && c.pack[..8] == BitsOf(d.sourceHigh, 8) && c.pack[8..16] == BitsOf(d.index, 8) && c.pack[16] == AsBit(d.active)
      && c.pack[24..32] == BitsOf(d.owed, 8) && (forall b :: 17 <= b < 24 ==> c.pack[b] == 0)
  {
    hide BitsOf;
  }

  /** The packed cursor decodes to itself. */
  lemma CursorRoundTrip(d: Dma)
    requires d.Valid()
    ensures EncodeCursor(d).Decode() == d
    ensures Packed(EncodeCursor(d).indexSlack) == 160 - d.index && Packed(EncodeCursor(d).owedSlack) == 6 - d.owed
  {
    hide Packed, BitsOf, Pow2;
    PowerValues();
    CursorParts(d);
    BitsFit(d.sourceHigh, 8, 256);
    BitsFit(d.index, 8, 256);
    BitsFit(d.owed, 8, 256);
    BitsFit(160 - d.index, 8, 256);
    BitsFit(6 - d.owed, 3, 8);
  }

  lemma ClearFactors(b: seq<int>)
    requires Bits(b)
    ensures forall i :: 0 <= i < |b| ==> Clear(b)[i] == AsBit(ClearFlags(b)[i])
  {
  }

  lemma LastPrefix(b: seq<int>)
    requires |b| == 8 && Bits(b)
    ensures Prefix(true, ClearFlags(b))[7] == AsBit(Packed(b) == 0)
  {
    hide Packed;
    ZeroPacked(b);
    var flags := ClearFlags(b);
    assert forall i :: 0 <= i < 8 ==> flags[i] == (b[i] == 0);
  }

  /** Every valid cursor meets the cursor identities. */
  lemma CursorAccepted(d: Dma)
    requires d.Valid()
    ensures CursorIdentities(EncodeCursor(d))
  {
    hide Packed, BitsOf, ChainIdentities;
    var c := EncodeCursor(d);
    CursorRoundTrip(d);
    CursorParts(d);
    EncodedCursorBits(d);
    ClearFactors(c.indexSlack);
    RunningChain(true, ClearFlags(c.indexSlack), c.zeroPrefix, Clear(c.indexSlack));
    LastPrefix(c.indexSlack);
    ZeroHolds(0);
  }

  /** The row of a timed step. */
  function ScheduleRow(d: Dma, cycles: int): DmaColumns {
    var remaining := 160 - d.index;
    var near := d.active && cycles >= remaining;
    var gap := if !d.active then 0 else if near then cycles - remaining else remaining - cycles - 1;
    DmaColumns(EncodeCursor(d), EncodeCursor(d.Schedule(cycles, d.active)), cycles, AsBit(near), BitsOf(gap, 8),
               Copy(0, 0, 0, 0))
  }

  /** `append_quiet_schedule` is accepted for every cursor that owes nothing: at rest for any length, active for at most
      six M-cycles. */
  lemma ScheduleAccepted(d: Dma, cycles: int)
    requires d.Valid() && d.owed == 0 && 0 <= cycles <= 0x2_0000 && (d.active ==> cycles <= 6)
    ensures CursorIdentities(ScheduleRow(d, cycles).before) && CursorIdentities(ScheduleRow(d, cycles).after)
    ensures ScheduleRow(d, cycles).Shape() && ScheduleRow(d, cycles).Boolean()
    ensures ScheduleIdentities(ScheduleRow(d, cycles))
  {
    hide Packed, BitsOf, CursorIdentities, Pow2, EncodeCursor;
    var r, e := ScheduleRow(d, cycles), d.Schedule(cycles, d.active);
    CursorAccepted(d);
    CursorAccepted(e);
    EncodedCursorBits(d);
    EncodedCursorBits(e);
    CursorRoundTrip(d);
    CursorRoundTrip(e);
    ActivePacked(d);
    ActivePacked(e);
    PowerValues();
    GapAccepted(d, cycles);
    ZeroHolds(0);
  }

  lemma GapAccepted(d: Dma, cycles: int)
    requires d.Valid() && 0 <= cycles && (d.active ==> cycles <= 6)
    ensures ComparisonIdentities(AsBit(d.active), cycles, 160 - d.index, ScheduleRow(d, cycles).nearEnd,
                                 Packed(ScheduleRow(d, cycles).gap))
  {
    hide Packed, BitsOf, Pow2, EncodeCursor;
    var remaining := 160 - d.index;
    var gap := if !d.active then 0 else if cycles >= remaining then cycles - remaining else remaining - cycles - 1;
    PowerValues();
    BitsFit(gap, 8, 256);
    if d.active { ComparisonComplete(cycles, remaining); } else { ZeroHolds(0); }
  }

  lemma ActivePacked(d: Dma)
    requires d.Valid()
    ensures Packed(EncodeCursor(d).pack[16..24]) == AsBit(d.active)
  {
    hide Packed, BitsOf;
    CursorParts(d);
    EncodedCursorBits(d);
    Packed8(EncodeCursor(d).pack[16..24]);
  }

  function ByteRow(d: Dma, value: int): DmaColumns {
    DmaColumns(EncodeCursor(d), EncodeCursor(d.Complete()), 0, 0, BitsOf(0, 8),
               Copy(d.SourceAddress(), value, d.DestinationAddress(), value))
  }

  /** A byte copy is accepted for every cursor that owes a byte. */
  lemma ByteAccepted(d: Dma, value: int)
    requires d.Valid() && d.owed > 0 && 0 <= value < 256
    ensures CursorIdentities(ByteRow(d, value).before) && CursorIdentities(ByteRow(d, value).after)
    ensures ByteRow(d, value).Shape() && ByteRow(d, value).Boolean() && ByteIdentities(ByteRow(d, value))
  {
    hide Packed, BitsOf, CursorIdentities, Pow2, EncodeCursor;
    var r, e := ByteRow(d, value), d.Complete();
    CursorAccepted(d);
    CursorAccepted(e);
    EncodedCursorBits(d);
    EncodedCursorBits(e);
    CursorRoundTrip(d);
    CursorRoundTrip(e);
    CompletionColumn(e);
    OwedBits(d);
    ZeroHolds(0);
  }

  lemma CompletionColumn(d: Dma)
    requires d.Valid()
    ensures EncodeCursor(d).zeroPrefix[7] == AsBit(d.index == 160)
  {
    hide Packed, BitsOf;
    CursorRoundTrip(d);
    EncodedCursorBits(d);
    LastPrefix(EncodeCursor(d).indexSlack);
  }

  /** Between one and six owed bytes set one of the three low bits. */
  lemma OwedBits(d: Dma)
    requires d.Valid() && d.owed > 0
    ensures
      var p := EncodeCursor(d).pack;
      Zero((1 - p[24]) * (1 - p[25]) * (1 - p[26]))
  {
    hide Packed, BitsOf, Pow2, EncodeCursor;
    PowerValues();
    CursorParts(d);
    var p := EncodeCursor(d).pack;
    var byte := p[24..32];
    BitsFit(d.owed, 8, 256);
    Packed8(byte);
    assert byte[0] == p[24] && byte[1] == p[25] && byte[2] == p[26];
    LowBitSet(byte[0], byte[1], byte[2], byte[3], byte[4], byte[5], byte[6], byte[7]) by { EightBits(byte); }
  }

  lemma EightBits(b: seq<int>)
    requires |b| == 8 && Bits(b)
    ensures Bit(b[0]) && Bit(b[1]) && Bit(b[2]) && Bit(b[3]) && Bit(b[4]) && Bit(b[5]) && Bit(b[6]) && Bit(b[7])
  {
  }

  lemma LowBitSet(a: int, b: int, c: int, d: int, e: int, f: int, g: int, h: int)
    requires Bit(a) && Bit(b) && Bit(c) && Bit(d) && Bit(e) && Bit(f) && Bit(g) && Bit(h)
    requires 0 < a + 2 * b + 4 * c + 8 * d + 16 * e + 32 * f + 64 * g + 128 * h <= 6
    ensures Zero((1 - a) * (1 - b) * (1 - c))
  {
    assert a == 1 || b == 1 || c == 1;
  }
}
