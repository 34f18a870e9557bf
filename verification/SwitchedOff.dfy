/** A state one store after power-on whose encoded columns the STAT relation refuses. */
module SwitchedOff {

  import opened Devices
  import opened Bus
  import opened Steps
  import opened PpuRow
  import opened RowEncoder
  import Mmio
  import Timer

  /** `LDH (40h), A` with A = 11h as the first instruction: the LCD goes off, LYC is still zero. */
  function StoreLcdc(): Instruction {
    Instruction([Fetch(0x100), Fetch(0x101), Store(0xff40, 0x11)], 3, Cpu(Running, Disabled, 0x102, 0xfffe))
  }

  lemma Performed(m: Machine)
    requires m.device == Mmio.PostBoot
    ensures Perform(m, StoreLcdc().accesses).Ok?
    ensures Perform(m, StoreLcdc().accesses).value == m.(device := Mmio.WriteMmio(m.device, 0xff40, 0x11).value)
  {
    hide Mmio.WriteMmio, Perform1;
    var a := StoreLcdc().accesses;
    Fetches(m);
    Stores(m);
    assert a[1..] == [Fetch(0x101), Store(0xff40, 0x11)] && a[1..][1..] == [Store(0xff40, 0x11)]
      && a[1..][1..][1..] == [];
    assert Perform(m, a) == Perform(m, a[1..]) == Perform(m, a[1..][1..]);
  }

  lemma Fetches(m: Machine)
    requires m.device == Mmio.PostBoot
    ensures Perform1(m, Fetch(0x100)) == Ok(m) && Perform1(m, Fetch(0x101)) == Ok(m)
  {
  }

  lemma Stores(m: Machine)
    requires m.device == Mmio.PostBoot
    ensures Mmio.WriteMmio(m.device, 0xff40, 0x11).Some?
    ensures Perform1(m, Store(0xff40, 0x11)) == Ok(m.(device := Mmio.WriteMmio(m.device, 0xff40, 0x11).value))
    ensures Mmio.WriteMmio(m.device, 0xff40, 0x11).value.ppu == Ppu(0x11, 0, 0, 0, 0)
    ensures !m.device.dma.active && m.device.dma.owed == 0
  {
    hide Mmio.WriteRequest, Mmio.WriteSerial, Mmio.WritePlain, Timer.TimerState.Write;
  }

  lemma Clocked(m: Machine)
    requires m.device.ppu == Ppu(0x11, 0, 0, 0, 0) && m.clock == 0
    ensures AddTiming(m, 3, false).Ok? && AddTiming(m, 3, false).value.device.ppu == Ppu(0x11, 0, 0, 0, 0)
  {
    hide Timer.Ticks, Timer.Requested, PpuTicks, VBlankRaised, StatRaised;
    DisabledPpu(m.device.ppu, 12);
  }

  /** From power-on one store reaches a state whose honest boundary columns the relation refuses. */
  lemma SwitchedOffRefused(profile: Profile, rom: map<int, int>, memory: map<int, int>)
    ensures
      var r := Run(PostBootMachine(profile, rom, memory), [StoreLcdc()]);
      && r.Ok? && r.value.device.Valid() && r.value.device.ppu == Ppu(0x11, 0, 0, 0, 0)
      && !StateIdentities(1, EncodeSide(r.value.device))
  {
    hide Perform, AddTiming, StateIdentities, EncodeSide, Mmio.WriteMmio;
    var m := PostBootMachine(profile, rom, memory);
    Performed(m);
    Stores(m);
    var p := Perform(m, StoreLcdc().accesses).value.(cpu := StoreLcdc().after);
    Clocked(p);
    assert Step(m, StoreLcdc()) == AddTiming(p, 3, false);
    var n := Step(m, StoreLcdc()).value;
    assert [StoreLcdc()][1..] == [];
    StepKeepsValid(m, StoreLcdc());
    SideAccepted(n.device);
  }
}
