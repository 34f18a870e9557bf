/** The serial half of a device-access row, and the register identity it conflicts with. */
module SerialIoRow {

  import opened Field
  import opened Devices
  import opened Mmio
  import opened PpuRow
  import opened QuietRow
  import opened SerialRow
  import opened MmioRow

  /** `clock` is the quiet serial relation read from the post-write columns: its `before` side is the state after the
      access. */
  datatype SerialIo = SerialIo(before: Side, beforeIf3: int, write: int, sel01: int, sel02: int, sel0f: int,
                               value: seq<int>, clock: Quiet) {

    predicate Shape() { before.Shape() && clock.Shape() && |value| == 8 }

    predicate Boolean() {
      && before.Boolean() && clock.Boolean() && Bits(value) && Bit(beforeIf3)
      && Bit(write) && Bit(sel01) && Bit(sel02) && Bit(sel0f)
    }

    function Flags(): seq<int> { [beforeIf3, write, sel01, sel02, sel0f] }

    predicate BooleanIdentitiesHold() {
      && before.BooleanIdentitiesHold() && clock.BooleanIdentitiesHold()
      && BooleanIdentities(value) && BooleanIdentities(Flags())
    }

    predicate Selects(a: Access) {
      && Shape()
      && write == AsBit(a.Write?)
      && (a.Write? ==> && sel01 == AsBit(a.address == 0xff01) && sel02 == AsBit(a.address == 0xff02)
                       && sel0f == AsBit(a.address == 0xff0f) && a.value == Packed(value))
    }
  }

  /** The boolean identities of the row say exactly that its columns are bits. */
  lemma SerialIoBits(r: SerialIo)
    ensures r.BooleanIdentitiesHold() <==> r.Boolean()
  {
    hide Side.Boolean, Side.BooleanIdentitiesHold, Quiet.Boolean, Quiet.BooleanIdentitiesHold, BooleanIdentities, Bits;
    SideBits(r.before);
    QuietBits(r.clock);
    BooleanColumns(r.value);
    BooleanColumns(r.Flags());
    FiveBits(r.beforeIf3, r.write, r.sel01, r.sel02, r.sel0f);
  }

  predicate PostWriteIdentities(r: SerialIo)
    requires r.Shape()
  {
    var post := r.clock.before;
    && ByteIdentity(Packed(post.low[0..8]), Packed(r.before.low[0..8]), r.sel01 * r.write, Packed(r.value))
    && ByteIdentity(Packed(post.low[8..16]), Packed(r.before.low[8..16]), r.sel02 * r.write, Packed(r.value))
    && Zero((Countdown(post) - Countdown(r.before))
            - r.sel02 * r.write * (4096 * r.value[0] * r.value[7] - Countdown(r.before)))
    && Zero(r.clock.Base(3) - r.beforeIf3 - r.sel0f * r.write * (r.value[3] - r.beforeIf3))
  }

  /** The serial relation of the row. */
  predicate SerialIoIdentities(r: SerialIo)
    requires r.Shape()
  {
    CountdownRange(1, r.before) && PostWriteIdentities(r) && SerialIdentities(1, r.clock)
  }

  /** FF02 listed among the registers that only a write may change. */
  predicate StableControl(r: SerialIo)
    requires r.Shape()
  {
    ByteIdentity(Packed(r.clock.after.low[8..16]), Packed(r.before.low[8..16]), r.sel02 * r.write, Packed(r.value))
  }

  /** The serial port after the access and before the clock. */
  function AfterAccess(s: Serial, a: Access): Serial {
    if a.Write? then WriteSerial(s, a.address, a.value) else s
  }

  lemma EqReload(post: int, before: int, sel: int, write: int, v0: int, v7: int)
    requires 0 <= post <= 4096 && 0 <= before <= 4096 && Bit(sel) && Bit(write) && Bit(v0) && Bit(v7)
    requires Zero((post - before) - sel * write * (4096 * v0 * v7 - before))
    ensures post == if sel == 1 && write == 1 then (if v0 == 1 && v7 == 1 then 4096 else 0) else before
  {
    BitProduct(sel, write);
    BitProduct(v0, v7);
    assert 4096 * v0 * v7 == 4096 * (v0 * v7);
    if sel == 1 && write == 1 { ZeroIsZero(post - 4096 * v0 * v7); } else { ZeroIsZero(post - before); }
  }

  lemma ValueBits(value: seq<int>)
    requires |value| == 8 && Bits(value)
    ensures Bit(value[0]) && Bit(value[3]) && Bit(value[7])
  {
  }

  lemma BytesInRange(s: Side)
    requires s.Shape() && s.Boolean()
    ensures 0 <= Packed(s.low[0..8]) < 256 && 0 <= Packed(s.low[8..16]) < 256
  {
    hide Packed;
    ByteRange(s.low[0..8]);
    ByteRange(s.low[8..16]);
  }

  /** The post-write columns are the port after `write_mmio`. */
  lemma PostWriteForced(r: SerialIo, a: Access)
    requires r.Shape() && r.Boolean() && r.Selects(a) && PostWriteIdentities(r) && CountdownRange(1, r.before)
    requires CountdownRange(1, r.clock.before)
    ensures SerialOf(r.clock.before) == AfterAccess(SerialOf(r.before), a)
    ensures r.clock.Base(3) == if a.Write? && a.address == 0xff0f then r.value[3] else r.beforeIf3
  {
    hide Packed, Zero, ByteIdentity, CountdownRange, Quiet.Base, Side.Boolean;
    var post := r.clock.before;
    CountdownBounded(r.before);
    CountdownBounded(post);
    hide Countdown;
    BytesInRange(r.before);
    BytesInRange(post);
    ByteRange(r.value);
    ValueBits(r.value);
    BitProduct(r.sel01, r.write);
    BitProduct(r.sel02, r.write);
    ByteForced(Packed(post.low[0..8]), Packed(r.before.low[0..8]), r.sel01 * r.write, Packed(r.value));
    ByteForced(Packed(post.low[8..16]), Packed(r.before.low[8..16]), r.sel02 * r.write, Packed(r.value));
    EqReload(Countdown(post), Countdown(r.before), r.sel02, r.write, r.value[0], r.value[7]);
    BaseBit(r.clock, 3);
    EqBase(r.clock.Base(3), r.beforeIf3, r.sel0f, r.write, r.value[3]);
  }

  /** The serial relation admits only the write followed by the clock. */
  lemma SerialIoForced(r: SerialIo, a: Access)
    requires r.Shape() && r.BooleanIdentitiesHold() && r.Selects(a) && SerialIoIdentities(r)
    requires r.clock.cycles < 0x1_0000_0000_0000_0000
    ensures
      var post := AfterAccess(SerialOf(r.before), a);
      var base := if a.Write? && a.address == 0xff0f then r.value[3] else r.beforeIf3;
      && post.Valid()
      && SerialOf(r.clock.after) == post.Advance(4 * r.clock.cycles)
      && r.clock.afterIf[3] == AsBit(base == 1 || post.Completes(4 * r.clock.cycles))
  {
    hide Quiet.BooleanIdentitiesHold, Packed, PostWriteIdentities, CountdownIdentities, SerialRegisterIdentities,
         CountdownRange, ZeroProducts, Quiet.Base;
    SerialIoBits(r);
    PostWriteForced(r, a);
    SerialForced(r.clock);
  }

  /**
    * A row that meets the serial relation also meets the stable-register identity for FF02 exactly when no
    * transfer completes in it: completion clears control bit 7, which the identity does not allow.
    */
  lemma StableControlExactly(r: SerialIo, a: Access)
    requires r.Shape() && r.BooleanIdentitiesHold() && r.Selects(a) && SerialIoIdentities(r)
    requires r.clock.cycles < 0x1_0000_0000_0000_0000
    ensures StableControl(r) <==> !AfterAccess(SerialOf(r.before), a).Completes(4 * r.clock.cycles)
  {
    hide Quiet.BooleanIdentitiesHold, Packed, PostWriteIdentities, SerialIdentities, ByteIdentity, Side.Boolean;
    SerialIoBits(r);
    SerialIoForced(r, a);
    BytesInRange(r.before);
    BytesInRange(r.clock.after);
    ByteRange(r.value);
    BitProduct(r.sel02, r.write);
    var x, y, v := Packed(r.clock.after.low[8..16]), Packed(r.before.low[8..16]), Packed(r.value);
    if StableControl(r) {
      ByteForced(x, y, r.sel02 * r.write, v);
    } else if x == (if r.sel02 * r.write == 1 then v else y) {
      ByteHolds(x, y, r.sel02 * r.write, v);
    }
  }

  /** No access in whose M-cycles a transfer completes has a row meeting both relations. */
  lemma CompletingAccessHasNoRow(r: SerialIo, a: Access)
    requires r.Shape() && r.BooleanIdentitiesHold() && r.Selects(a) && r.clock.cycles < 0x1_0000_0000_0000_0000
    requires AfterAccess(SerialOf(r.before), a).Completes(4 * r.clock.cycles)
    ensures !(SerialIoIdentities(r) && StableControl(r))
  {
    hide Packed, SerialIoIdentities, StableControl, SerialIo.BooleanIdentitiesHold, SerialOf, AfterAccess,
         Serial.Completes;
    if SerialIoIdentities(r) { StableControlExactly(r, a); }
  }
}
