/** The OAM DMA relation of a packed row: cursor ranges, the schedule of a timed row, and the byte copy. */
module DmaRow {

  import opened Field
  import opened Gadgets
  import opened Devices

  /** The 32 packed cursor bits of one boundary with their slack and zero prefix. */
  datatype Cursor = Cursor(pack: seq<int>, indexSlack: seq<int>, owedSlack: seq<int>, zeroPrefix: seq<int>) {
    predicate Shape() { |pack| == 32 && |indexSlack| == 8 && |owedSlack| == 3 && |zeroPrefix| == 8 }
    predicate Boolean() { Bits(pack) && Bits(indexSlack) && Bits(owedSlack) && Bits(zeroPrefix) }
    predicate BooleanIdentitiesHold() {
      && BooleanIdentities(pack) && BooleanIdentities(indexSlack)
      && BooleanIdentities(owedSlack) && BooleanIdentities(zeroPrefix)
    }

    function Source(): int
      requires Shape()
    {
      Packed(pack[..8])
    }

    function Index(): int
      requires Shape()
    {
      Packed(pack[8..16])
    }

    function Active(): int
      requires Shape()
    {
      pack[16]
    }

    function Owed(): int
      requires Shape()
    {
      Packed(pack[24..32])
    }

    function Decode(): Dma
      requires Shape()
    {
      Dma(Source(), Index(), Active() == 1, Owed())
    }
  }

  datatype Copy = Copy(sourceAddress: int, sourceValue: int, destinationAddress: int, destinationValue: int)

  datatype DmaColumns = DmaColumns(before: Cursor, after: Cursor, cycles: int, nearEnd: int, gap: seq<int>,
                                   copy: Copy) {
    predicate Shape() {
      && before.Shape() && after.Shape() && |gap| == 8 && Felt(cycles) && Felt(copy.sourceAddress)
      && Felt(copy.sourceValue)
      && Felt(copy.destinationAddress) && Felt(copy.destinationValue)
    }
    predicate Boolean() { before.Boolean() && after.Boolean() && Bits(gap) && Bits([nearEnd]) }
    predicate BooleanIdentitiesHold() {
      && before.BooleanIdentitiesHold() && after.BooleanIdentitiesHold()
      && BooleanIdentities(gap) && BooleanIdentities([nearEnd])
    }
  }

  function Clear(slack: seq<int>): (r: seq<int>)
    ensures |r| == |slack|
  {
    seq(|slack|, i requires 0 <= i < |slack| => 1 - slack[i])
  }

  predicate CursorIdentities(c: Cursor)
    requires c.Shape()
  {
    && Zero(c.Index() + Packed(c.indexSlack) - 160)
    && Zero(c.Owed() + Packed(c.owedSlack) - 6)
    && (forall b :: 17 <= b < 24 ==> Zero(c.pack[b]))
    && ChainIdentities(1, c.zeroPrefix, Clear(c.indexSlack))
    && Zero(c.Active() * c.zeroPrefix[7])
  }

  predicate ScheduleIdentities(r: DmaColumns)
    requires r.Shape()
  {
    var active, remaining := r.before.Active(), Packed(r.before.indexSlack);
    && Zero(r.before.Owed())
    && Zero(r.after.Source() - r.before.Source())
    && Zero(r.after.Index() - r.before.Index())
    && Zero(Packed(r.after.pack[16..24]) - Packed(r.before.pack[16..24]))
    && ComparisonIdentities(active, r.cycles, remaining, r.nearEnd, Packed(r.gap))
    && Zero(r.after.Owed() - active * (r.cycles - r.nearEnd * (r.cycles - remaining)))
  }

  /** What a long skip adds: no transfer is active. */
  predicate LongDmaIdentity(selected: int, r: DmaColumns)
    requires r.Shape()
  {
    Zero(selected * r.before.Active())
  }

  predicate ByteIdentities(r: DmaColumns)
    requires r.Shape()
  {
    var active := r.before.Active();
    && Zero(active - 1)
    && Zero((1 - r.before.pack[24]) * (1 - r.before.pack[25]) * (1 - r.before.pack[26]))
    && Zero(r.after.Source() - r.before.Source())
    && Zero(r.after.Index() - r.before.Index() - 1)
    && Zero(r.after.Owed() - r.before.Owed() + 1)
    && Zero(r.after.Active() - active + r.after.zeroPrefix[7])
    && Zero(r.copy.sourceAddress - (256 * r.before.Source() + r.before.Index()))
    && Zero(r.copy.destinationAddress - (0xfe00 + r.before.Index()))
    && Zero(r.copy.destinationValue - r.copy.sourceValue)
  }

  lemma CursorBits(c: Cursor)
    ensures c.BooleanIdentitiesHold() <==> c.Boolean()
  {
    hide Bits, BooleanIdentities;
    BooleanColumns(c.pack);
    BooleanColumns(c.indexSlack);
    BooleanColumns(c.owedSlack);
    BooleanColumns(c.zeroPrefix);
  }

  /** The boolean identities of the row say exactly that its columns are bits. */
  lemma DmaBits(r: DmaColumns)
    ensures r.BooleanIdentitiesHold() <==> r.Boolean()
    ensures r.Boolean() ==> Bit(r.nearEnd)
  {
    hide BooleanIdentities, Cursor.Boolean, Cursor.BooleanIdentitiesHold;
    CursorBits(r.before);
    CursorBits(r.after);
    BooleanColumns(r.gap);
    BooleanColumns([r.nearEnd]);
    assert [r.nearEnd][0] == r.nearEnd;
  }

  // ----- one boundary -----

  lemma CursorRanges(c: Cursor)
    requires c.Shape() && c.Boolean()
    ensures 0 <= c.Source() < 256 && 0 <= c.Index() < 256 && 0 <= c.Owed() < 256
    ensures 0 <= Packed(c.indexSlack) < 256 && 0 <= Packed(c.owedSlack) < 8
  {
    PackedRange(c.pack[..8]);
    PackedRange(c.pack[8..16]);
    PackedRange(c.pack[24..32]);
    PackedRange(c.indexSlack);
    PackedRange(c.owedSlack);
    hide Packed, Pow2;
    PowerValues();
  }

  lemma PrefixMeans(c: Cursor)
    requires c.Shape() && c.Boolean() && ChainIdentities(1, c.zeroPrefix, Clear(c.indexSlack))
    ensures c.zeroPrefix[7] == AsBit(Packed(c.indexSlack) == 0)
  {
    hide Packed, ChainIdentities;
    var clear := Clear(c.indexSlack);
    assert Bits(clear);
    Gadgets.ChainSound(1, c.zeroPrefix, clear, 8);
    ZeroPacked(c.indexSlack);
    assert forall i :: 0 <= i < 8 ==> (clear[i] == 1 <==> c.indexSlack[i] == 0);
  }

  lemma EqExcludes(active: int, last: int)
    requires Bit(active) && Bit(last) && Zero(active * last)
    ensures active == 0 || last == 0
  {
    if active == 1 { ZeroIsZero(last); }
  }

  /** Slack columns bound the cursor, and an active cursor has bytes left. */
  lemma CursorForced(c: Cursor)
    requires c.Shape() && c.Boolean() && CursorIdentities(c)
    ensures 0 <= c.Source() < 256 && 0 <= c.Index() <= 160 && 0 <= c.Owed() <= 6
    ensures Packed(c.indexSlack) == 160 - c.Index() && Bit(c.Active()) && (c.Active() == 1 ==> c.Index() < 160)
    ensures c.zeroPrefix[7] == AsBit(c.Index() == 160)
    ensures c.Active() == Packed(c.pack[16..24])
  {
    hide Packed, Bits, ChainIdentities;
    CursorRanges(c);
    hide Cursor.Source, Cursor.Index, Cursor.Owed;
    ZeroIsZero(c.Index() + Packed(c.indexSlack) - 160);
    ZeroIsZero(c.Owed() + Packed(c.owedSlack) - 6);
    PrefixMeans(c);
    PrefixBit(c);
    EqExcludes(c.Active(), c.zeroPrefix[7]);
    ActiveByte(c);
  }

  lemma PrefixBit(c: Cursor)
    requires c.Shape() && c.Boolean()
    ensures Bit(c.zeroPrefix[7]) && Bit(c.Active())
  {
  }

  lemma ActiveByte(c: Cursor)
    requires c.Shape() && c.Boolean() && forall b :: 17 <= b < 24 ==> Zero(c.pack[b])
    ensures Packed(c.pack[16..24]) == c.pack[16]
  {
    hide Packed;
    var byte := c.pack[16..24];
    forall b | 17 <= b < 24 ensures c.pack[b] == 0 { ZeroIsZero(c.pack[b]); }
    Packed8(byte);
  }

  lemma GapRange(gap: seq<int>)
    requires |gap| == 8 && Bits(gap)
    ensures 0 <= Packed(gap) < 256
  {
    PackedRange(gap);
    PowerValues();
  }

  lemma EqOwed(owed: int, active: int, cycles: int, nearEnd: int, remaining: int)
    requires 0 <= owed <= 6 && Bit(active) && Bit(nearEnd) && 0 <= remaining <= 160
    requires 0 <= cycles < 0x1_0000_0000_0000_0000
    requires Zero(owed - active * (cycles - nearEnd * (cycles - remaining)))
    ensures owed == if active == 0 then 0 else if nearEnd == 1 then remaining else cycles
  {
    if active == 0 { ZeroIsZero(owed); }
    else if nearEnd == 1 { ZeroIsZero(owed - remaining); }
    else { ZeroIsZero(owed - cycles); }
  }

  /** A timed row schedules exactly the bytes `schedule_dma_bytes` would, from a cursor that owes nothing. */
  lemma ScheduleForced(r: DmaColumns)
    requires r.Shape() && r.BooleanIdentitiesHold() && CursorIdentities(r.before) && CursorIdentities(r.after)
    requires ScheduleIdentities(r)
    requires r.cycles < 0x1_0000_0000_0000_0000
    ensures r.before.Decode().owed == 0 && r.before.Decode().Valid() && r.after.Decode().Valid()
    ensures r.after.Decode() == r.before.Decode().Schedule(r.cycles, r.before.Decode().active)
  {
    hide Packed, Bits, CursorIdentities, Cursor.Source, Cursor.Index, Cursor.Owed, ComparisonIdentities;
    DmaBits(r);
    CursorForced(r.before);
    CursorForced(r.after);
    GapRange(r.gap);
    SameColumn(r.before.Owed(), 0);
    SameColumn(r.after.Source(), r.before.Source());
    SameColumn(r.after.Index(), r.before.Index());
    SameColumn(r.after.Active(), r.before.Active());
    var active, remaining := r.before.Active(), Packed(r.before.indexSlack);
    if active == 1 {
      ComparisonSound(r.cycles, remaining, r.nearEnd, Packed(r.gap));
    }
    EqOwed(r.after.Owed(), active, r.cycles, r.nearEnd, remaining);
  }

  lemma EqSomeBit(a: int, b: int, c: int)
    requires Bit(a) && Bit(b) && Bit(c) && Zero((1 - a) * (1 - b) * (1 - c))
    ensures a == 1 || b == 1 || c == 1
  {
  }

  lemma OwesSomething(c: Cursor)
    requires c.Shape() && c.Boolean() && Zero((1 - c.pack[24]) * (1 - c.pack[25]) * (1 - c.pack[26]))
    ensures c.Owed() != 0
  {
    var byte := c.pack[24..32];
    ZeroPacked(byte);
    hide Packed;
    EqSomeBit(c.pack[24], c.pack[25], c.pack[26]);
    assert byte[0] == c.pack[24] && byte[1] == c.pack[25] && byte[2] == c.pack[26];
  }

  lemma EqDropped(after: int, before: int, last: int)
    requires Bit(after) && before == 1 && Bit(last) && Zero(after - before + last)
    ensures after == 1 - last
  {
    ZeroIsZero(after - before + last);
  }

  lemma CopyForced(r: DmaColumns, source: int, index: int)
    requires r.Shape() && 0 <= source < 256 && 0 <= index <= 160
    requires Zero(r.copy.sourceAddress - (256 * source + index)) && Zero(r.copy.destinationAddress - (0xfe00 + index))
    requires Zero(r.copy.destinationValue - r.copy.sourceValue)
    ensures r.copy.sourceAddress == 256 * source + index && r.copy.destinationAddress == 0xfe00 + index
    ensures r.copy.destinationValue == r.copy.sourceValue
  {
    SameColumn(r.copy.sourceAddress, 256 * source + index);
    SameColumn(r.copy.destinationAddress, 0xfe00 + index);
    SameColumn(r.copy.destinationValue, r.copy.sourceValue);
  }

  /** A byte row pays one owed byte, moves the cursor on, and copies between the cursor's addresses. */
  lemma ByteForced(r: DmaColumns)
    requires r.Shape() && r.BooleanIdentitiesHold() && CursorIdentities(r.before) && CursorIdentities(r.after)
    requires ByteIdentities(r)
    ensures r.before.Decode().active && r.before.Decode().owed > 0
    ensures r.after.Decode() == r.before.Decode().Complete()
    ensures r.copy.sourceAddress == r.before.Decode().SourceAddress()
    ensures r.copy.destinationAddress == r.before.Decode().DestinationAddress()
    ensures r.copy.destinationValue == r.copy.sourceValue
  {
    hide Packed, CursorIdentities, Cursor.Source, Cursor.Index, Cursor.Owed;
    DmaBits(r);
    CursorForced(r.before);
    CursorForced(r.after);
    ZeroIsZero(r.before.Active() - 1);
    OwesSomething(r.before);
    SameColumn(r.after.Source(), r.before.Source());
    ZeroIsZero(r.after.Index() - r.before.Index() - 1);
    ZeroIsZero(r.after.Owed() - r.before.Owed() + 1);
    EqDropped(r.after.Active(), r.before.Active(), r.after.zeroPrefix[7]);
    CopyForced(r, r.before.Source(), r.before.Index());
  }
}
