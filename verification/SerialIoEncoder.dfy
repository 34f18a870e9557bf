/** Honest serial columns of device-access rows, and a native step that no row can carry. */
module SerialIoEncoder {

  import opened Field
  import opened Wrappers
  import opened Timer
  import opened Devices
  import opened Bus
  import opened QuietRow
  import opened SerialRow
  import opened RowEncoder
  import opened MmioRow
  import opened SerialIoRow
  import opened MmioEncoder
  import Decimal
  import Isa
  import Execution
  import Mmio

  lemma AccessedSerial(d: Device, a: Access)
    requires d.Valid() && Accepts(d, a)
    ensures Accessed(d, a).Valid() && Accessed(d, a).serial == AfterAccess(d.serial, a)
  {
    hide Device.Valid, Mmio.WriteRequest, Mmio.WritePpu, Mmio.WriteSerial, Mmio.WritePlain, TimerState.Write;
    AccessedValid(d, a);
  }

  /** `append_serial_mmio_row`: the state before, the access, and the clock from the state after it. */
  function SerialIoRowOf(d: Device, a: Access, cycles: nat): SerialIo
    requires d.Valid() && Accessed(d, a).Valid() && Accessed(d, a).AdvanceT(4 * cycles).Valid()
  {
    SerialIo(EncodeSide(d), AsBit(d.request.serial), AsBit(a.Write?), Selected(a, 0xff01), Selected(a, 0xff02),
             Selected(a, 0xff0f),
             Byte(ValueOf(a)), QuietRowOf(Accessed(d, a), cycles))
  }

  lemma RowBits(d: Device, a: Access, cycles: nat)
    requires d.Valid() && Accessed(d, a).Valid() && Accessed(d, a).AdvanceT(4 * cycles).Valid()
    ensures SerialIoRowOf(d, a, cycles).BooleanIdentitiesHold()
  {
    hide EncodeSide, QuietRowOf, Byte, Accessed, Device.AdvanceT, Bits, SerialIo.BooleanIdentitiesHold;
    SideBoolean(d);
    QuietRowBoolean(Accessed(d, a), cycles);
    SerialIoBits(SerialIoRowOf(d, a, cycles));
  }

  lemma SerialParts(d: Device)
    requires d.Valid()
    ensures
      var s := EncodeSide(d);
      Packed(s.low[0..8]) == d.serial.data && Packed(s.low[8..16]) == d.serial.control
        && Countdown(s) == d.serial.remaining
  {
    hide EncodeSide, Packed;
    SideRoundTrip(d);
    CountdownOf(d);
  }

  lemma ReloadHolds(post: int, before: int, sel: int, write: int, v0: int, v7: int)
    requires Bit(sel) && Bit(write) && Bit(v0) && Bit(v7)
    requires post == if sel == 1 && write == 1 then (if v0 == 1 && v7 == 1 then 4096 else 0) else before
    ensures Zero((post - before) - sel * write * (4096 * v0 * v7 - before))
  {
    ZeroHolds(0);
    assert (post - before) - sel * write * (4096 * v0 * v7 - before) == 0;
  }

  lemma PostWriteAccepted(d: Device, a: Access, cycles: nat)
    requires d.Valid() && Accepts(d, a) && Accessed(d, a).Valid() && Accessed(d, a).AdvanceT(4 * cycles).Valid()
    requires cycles <= 6
    ensures SerialIoRowOf(d, a, cycles).Shape() && PostWriteIdentities(SerialIoRowOf(d, a, cycles))
  {
    hide EncodeSide, Packed, Byte, Device.AdvanceT, ByteIdentity, Zero, Device.Valid, Countdown, Accessed,
         Mmio.Implemented, PpuTicks, VBlankRaised, StatRaised, BitsOf, ZeroChain, Ppu.Signal, Quiet.Base,
         Mmio.WriteSerial;
    var r, e := SerialIoRowOf(d, a, cycles), Accessed(d, a);
    AccessedSerial(d, a);
    SerialParts(d);
    SerialParts(e);
    ByteValue(ValueOf(a));
    WrittenSerial(d.serial, a);
    ByteHolds(e.serial.data, d.serial.data, r.sel01 * r.write, ValueOf(a));
    ByteHolds(e.serial.control, d.serial.control, r.sel02 * r.write, ValueOf(a));
    ReloadHolds(e.serial.remaining, d.serial.remaining, r.sel02, r.write, r.value[0], r.value[7]);
    ClockBase(e, cycles);
    RequestAfter(d, a);
    BaseHolds(AsBit(e.request.serial), r.beforeIf3, r.sel0f, r.write, r.value[3]);
  }

  lemma ClockBase(e: Device, cycles: nat)
    requires e.Valid() && e.AdvanceT(4 * cycles).Valid() && cycles <= 6
    ensures QuietRowOf(e, cycles).Shape() && QuietRowOf(e, cycles).Base(3) == AsBit(e.request.serial)
    ensures QuietRowOf(e, cycles).before == EncodeSide(e) && QuietRowOf(e, cycles).cycles == cycles
  {
    hide EncodeSide, BitsOf, PpuTicks, VBlankRaised, StatRaised, ZeroChain, Ppu.Signal, Device.AdvanceT, Device.Valid,
         Serial.Completes;
    BaseRequests(QuietRowOf(e, cycles), e.request);
  }

  lemma WrittenSerial(s: Serial, a: Access)
    ensures
      var t, v := AfterAccess(s, a), ValueOf(a);
      && t.data == (if Selected(a, 0xff01) == 1 then v else s.data)
      && t.control == (if Selected(a, 0xff02) == 1 then v else s.control)
      && t.remaining == (if Selected(a, 0xff02) == 1 then (if v >= 128 && v % 2 == 1 then 4096 else 0) else s.remaining)
  {
  }

  lemma RequestAfter(d: Device, a: Access)
    requires Accepts(d, a)
    ensures AsBit(Accessed(d, a).request.serial) == if Selected(a, 0xff0f) == 1 then ValueOf(a) / 8 % 2
            else AsBit(d.request.serial)
  {
    hide Ppu.Signal, Mmio.WritePpu, Mmio.WriteSerial, Mmio.WritePlain, TimerState.Write, Mmio.JoypadFalls;
  }

  /**
    * For every valid device, access and short length the encoder's row meets the serial relation, and the stable FF02
    * identity as well exactly when no transfer completes in it.
    */
  lemma SerialIoAcceptedExactly(d: Device, a: Access, cycles: nat)
    requires d.Valid() && Accepts(d, a) && cycles <= 6
    ensures Accessed(d, a).Valid() && Accessed(d, a).AdvanceT(4 * cycles).Valid()
    ensures
      var r := SerialIoRowOf(d, a, cycles);
      && r.Shape() && r.BooleanIdentitiesHold() && r.Selects(a) && SerialOf(r.before) == d.serial
      && r.clock.cycles == cycles
      && SerialIoIdentities(r) && (StableControl(r) <==> !AfterAccess(d.serial, a).Completes(4 * cycles))
  {
    AccessedValid(d, a);
    AdvanceValid(Accessed(d, a), 4 * cycles);
    SerialIoParts(d, a, cycles);
  }

  lemma SerialIoParts(d: Device, a: Access, cycles: nat)
    requires d.Valid() && Accepts(d, a) && cycles <= 6 && Accessed(d, a).Valid()
    requires Accessed(d, a).AdvanceT(4 * cycles).Valid()
    ensures
      var r := SerialIoRowOf(d, a, cycles);
      && r.Shape() && r.BooleanIdentitiesHold() && r.Selects(a) && SerialOf(r.before) == d.serial
      && r.clock.cycles == cycles
      && SerialIoIdentities(r) && (StableControl(r) <==> !AfterAccess(d.serial, a).Completes(4 * cycles))
  {
    hide EncodeSide, QuietRowOf, Packed, Byte, Device.AdvanceT, Device.Valid, Accessed, Mmio.Implemented,
         PostWriteIdentities, SerialIdentities, CountdownRange, StableControl, SerialIo.BooleanIdentitiesHold, SerialOf,
         AfterAccess, Serial.Completes;
    var r, e := SerialIoRowOf(d, a, cycles), Accessed(d, a);
    RowBits(d, a, cycles);
    PostWriteAccepted(d, a, cycles);
    SerialAccepted(e, cycles);
    RangeAccepted(d);
    SideRoundTrip(d);
    ClockBase(e, cycles);
    ByteValue(ValueOf(a));
    StableControlExactly(r, a);
  }

  // ----- a step the native machine takes -----

  /** About to run `LDH A, (C)` on LY from work RAM, with two M-cycles of a transfer left. */
  function ReadsLyNow(): Execution.Vm {
    var regs := Execution.Registers(0, 0, 0x44, 0, 0, 0, 0);
    var core := Execution.Core(regs, Decimal.Flags(false, false, false, false), 0xfffe, 0xc000, Disabled, Running, 0);
    Execution.Vm(Profile(true, false), core, Mmio.PostBoot.(serial := Serial(0, 0x81, 8)), Mapper(false, 1, 0), map[],
                 0, 0, 0, map[], map[],
                 [], [])
  }

  function OpcodeWitness(): seq<Execution.Witness> { [Execution.MemoryByte(Execution.Read(0xc000, 0xc000, 0xf2, 0))] }

  lemma OpcodeFetched()
    ensures
      var x := Execution.Exec(ReadsLyNow(), OpcodeWitness(), []);
      var r := Execution.FetchWhole(Execution.Lookup, x);
      && r.Ok? && r.value.value == Execution.Fetched(Isa.Plain(Isa.HighCLoad(Isa.IntoA), 1, 2), [])
      && r.value.exec.witnesses == [] && r.value.exec.vm == ReadsLyNow().(core := ReadsLyNow().core.(pc := 0xc001))
  {
    assert Isa.DecodePrimary(0xf2) == Some(Isa.Plain(Isa.HighCLoad(Isa.IntoA), 1, 2));
    hide Isa.DecodePrimary, Isa.DecodeCb;
    var x := Execution.Exec(ReadsLyNow(), OpcodeWitness(), []);
    assert Execution.FetchInstruction(Execution.Lookup, x, 0xc000, Execution.OpcodeRole).Ok?;
  }

  lemma LyRead(x: Execution.Exec)
    requires x.vm == ReadsLyNow().(core := ReadsLyNow().core.(pc := 0xc001)) && x.witnesses == []
    ensures
      var r := Execution.Execute(Execution.Lookup, x, Isa.HighCLoad(Isa.IntoA), []);
      r.Ok? && !r.value.value && r.value.exec.witnesses == [] && r.value.exec.vm.device == x.vm.device
      && r.value.exec.vm.core.mCycles == 0
  {
  }

  lemma TwoCycles(x: Execution.Exec)
    requires x.vm.device == ReadsLyNow().device && x.vm.core.mCycles == 0
    ensures
      var r := Execution.AddTiming(x, 2, false);
      r.Ok? && r.value.witnesses == x.witnesses && r.value.vm.core.mCycles == 2
        && r.value.vm.device.serial == Serial(0xff, 1, 0)
  {
    hide PpuTicks, VBlankRaised, StatRaised, Ticks, Requested, Ppu.Signal;
  }

  lemma InstructionCompletes()
    ensures
      var r := Execution.InstructionStep(Execution.Lookup, Execution.Exec(ReadsLyNow(), OpcodeWitness(), []));
      && r.Ok? && r.value.exec.witnesses == [] && r.value.exec.vm.core.mCycles == 2
      && r.value.exec.vm.device.serial == Serial(0xff, 1, 0)
  {
    hide Execution.FetchWhole, Execution.Execute, Execution.AddTiming;
    var x := Execution.Exec(ReadsLyNow(), OpcodeWitness(), []);
    OpcodeFetched();
    var f := Execution.FetchWhole(Execution.Lookup, x).value;
    LyRead(f.exec);
    var g := Execution.Execute(Execution.Lookup, f.exec, Isa.HighCLoad(Isa.IntoA), []).value;
    TwoCycles(Execution.AfterExecute(x.vm, g.exec, Isa.HighCLoad(Isa.IntoA)));
  }

  lemma RunsInstruction()
    ensures ReadsLyNow().device.dma.owed == 0 && Execution.Classify(ReadsLyNow()) == Ok(None)
  {
  }

  /** The native step accepts it, takes two M-cycles and completes the transfer. */
  lemma NativeStepCompletes()
    ensures
      var r := Execution.Step(Execution.Lookup, ReadsLyNow(), OpcodeWitness());
      && r.Ok? && r.value.vm.core.mCycles == 2 && r.value.vm.device.serial == Serial(0xff, 1, 0)
  {
    hide Execution.InstructionStep, Execution.Classify, ReadsLyNow, OpcodeWitness;
    RunsInstruction();
    InstructionCompletes();
  }

  /** Its device access completes a transfer, so no row meets both relations for it. */
  lemma NativeStepHasNoRow(r: SerialIo)
    requires r.Shape() && r.BooleanIdentitiesHold() && r.Selects(Read) && r.clock.cycles == 2
    requires SerialOf(r.before) == ReadsLyNow().device.serial
    ensures !(SerialIoIdentities(r) && StableControl(r))
  {
    hide Packed, SerialIoIdentities, StableControl, SerialIo.BooleanIdentitiesHold;
    CompletingAccessHasNoRow(r, Read);
  }
}
