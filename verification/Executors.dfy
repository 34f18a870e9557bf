/** The executor: bus accesses and machine steps as updates of one object's fields. */
module Executors {

  import opened Wrappers
  import opened Devices
  import opened HaltSkips
  import opened Bus
  import opened Steps
  import Mmio

  class Executor {
    const profile: Profile
    const rom: map<int, int>
    var cpu: Cpu
    var clock: nat
    var device: Device
    var mapper: Mapper
    var memory: map<int, int>

    function State(): Machine
      reads this
    {
      Machine(profile, cpu, clock, device, mapper, rom, memory)
    }

    constructor (m: Machine)
      ensures State() == m
    {
      profile, rom := m.profile, m.rom;
      cpu, clock, device, mapper, memory := m.cpu, m.clock, m.device, m.mapper, m.memory;
    }

    /** Both access checks, in order. */
    method RequireCpuAccess(address: int) returns (fault: Option<Fault>)
      ensures fault == Blocked(device, address)
    {
      if device.dma.active && !(0xff80 <= address <= 0xfffe) { return Some(CpuBusTaken); }
      var mode := device.ppu.Mode();
      var video := 0x8000 <= address <= 0x9fff && device.ppu.Enabled() && mode == 3;
      var objects := 0xfe00 <= address <= 0xfe9f && device.ppu.Enabled() && (mode == 2 || mode == 3);
      if video || objects { return Some(VideoTaken); }
      return None;
    }

    method FetchInstruction(address: int) returns (r: Result<int>)
      ensures r == FetchAt(State(), address)
    {
      var fault := RequireCpuAccess(address);
      if fault.Some? { return Err(fault.value); }
      match OwnerOf(address) {
        case RomArea => return Ok(At(rom, mapper.MapRom(address)));
        case MemoryArea => return Ok(At(memory, address));
        case _ => return Err(NotExecutable);
      }
    }

    /** A data read changes nothing but the sampled buttons and their interrupt. */
    method ReadData(address: int, buttons: int) returns (fault: Option<Fault>)
      modifies this`device
      ensures fault
              == (if LoadAt(old(State()), address, buttons).Ok? then None
                  else Some(LoadAt(old(State()), address, buttons).fault))
      ensures State() == (if fault.None? then LoadAt(old(State()), address, buttons).value else old(State()))
    {
      fault := RequireCpuAccess(address);
      if fault.Some? { return; }
      if address == 0xff00 {
        device := Mmio.SampleJoypad(device, buttons);
        return;
      }
      if 0xa000 <= address <= 0xbfff {
        if mapper.External(profile, address).Rtc? { return Some(RtcRegister); }
        return;
      }
      match OwnerOf(address) {
        case RomArea => return;
        case MemoryArea => return;
        case Registers => if !Mmio.Implemented(address) { return Some(NoRegister); }
        case EchoRam => return Some(EchoArea);
        case Nobody => return Some(NoOwner);
      }
    }

    /** A data write goes to the mapper, to memory or to one device register. */
    method WriteData(address: int, value: int) returns (fault: Option<Fault>)
      modifies this`device, this`mapper, this`memory
      ensures fault
              == (if StoreAt(old(State()), address, value).Ok? then None
                  else Some(StoreAt(old(State()), address, value).fault))
      ensures State() == (if fault.None? then StoreAt(old(State()), address, value).value else old(State()))
    {
      fault := RequireCpuAccess(address);
      if fault.Some? { return; }
      if address <= 0x7fff {
        mapper := mapper.Control(profile, address, value);
        return;
      }
      if 0xa000 <= address <= 0xbfff {
        match mapper.External(profile, address) {
          case Ram(physical) => memory := memory[physical := value];
          case Rtc(_) => fault := Some(RtcRegister);
          case Closed =>
        }
        return;
      }
      match OwnerOf(address) {
        case MemoryArea => memory := memory[address := value];
        case Registers =>
          var written := Mmio.WriteMmio(device, address, value);
          if written.None? { return Some(NoRegister); }
          device := written.value;
        case EchoRam => return Some(EchoArea);
        case _ => return Some(NoOwner);
      }
    }

    /** All accesses of one step; on a fault the step is abandoned. */
    method PerformAll(accesses: seq<BusAccess>) returns (fault: Option<Fault>)
      modifies this`device, this`mapper, this`memory
      ensures fault.None? <==> Perform(old(State()), accesses).Ok?
      ensures fault.Some? ==> Perform(old(State()), accesses) == Err(fault.value)
      ensures fault.None? ==> State() == Perform(old(State()), accesses).value
    {
      hide FetchAt, LoadAt, StoreAt, Blocked;
      fault := None;
      var k := 0;
      while k < |accesses|
        invariant 0 <= k <= |accesses|
        invariant fault.None? && cpu == old(cpu) && clock == old(clock)
        invariant Perform(old(State()), accesses) == Perform(State(), accesses[k..])
      {
        match accesses[k] {
          case Fetch(address) =>
            var byte := FetchInstruction(address);
            if byte.Err? { return Some(byte.fault); }
          case Load(address, buttons) =>
            fault := ReadData(address, buttons);
            if fault.Some? { return; }
          case Store(address, value) =>
            fault := WriteData(address, value);
            if fault.Some? { return; }
        }
        assert accesses[k..][1..] == accesses[k + 1..];
        k := k + 1;
      }
      assert accesses[k..] == [];
    }

    /** The serialized DMA copy of one owed byte. */
    method CopyDmaByte() returns (fault: Option<Fault>)
      modifies this`device, this`memory
      ensures fault == (if CopyByte(old(State())).Ok? then None else Some(CopyByte(old(State())).fault))
      ensures State() == (if fault.None? then CopyByte(old(State())).value else old(State()))
    {
      var source := SourceByte(State(), device.dma.SourceAddress());
      if source.Err? { return Some(source.fault); }
      memory := memory[device.dma.DestinationAddress() := source.value];
      device := device.(dma := device.dma.Complete());
      return None;
    }

    method AddMachineTiming(increment: nat, dmaActive: bool) returns (fault: Option<Fault>)
      modifies this`clock, this`device
      ensures fault == (if AddTiming(old(State()), increment, dmaActive).Ok? then None
                        else Some(AddTiming(old(State()), increment, dmaActive).fault))
      ensures State() == (if fault.None? then AddTiming(old(State()), increment, dmaActive).value else old(State()))
    {
      hide Device.AdvanceM;
      if clock + increment >= 0x1_0000_0000_0000_0000 { return Some(ClockOverflow); }
      clock := clock + increment;
      device := device.AdvanceM(increment);
      device := device.(dma := device.dma.Schedule(increment, dmaActive));
      return None;
    }

    /** One interrupt dispatch; the DMA flag is read only after both pushes. */
    method DispatchInterrupt(interrupt: Interrupt) returns (fault: Option<Fault>)
      modifies this
      ensures fault.None? <==> DispatchStep(old(State()), interrupt).Ok?
      ensures fault.Some? ==> DispatchStep(old(State()), interrupt) == Err(fault.value)
      ensures fault.None? ==> State() == DispatchStep(old(State()), interrupt).value
    {
      hide Perform, AddTiming;
      var pushes := Pushes(State());
      device := device.(request := Mmio.AcknowledgeLine(device.request, interrupt));
      assert State() == Acknowledged(old(State()), interrupt);
      fault := PerformAll(pushes);
      if fault.Some? { return; }
      cpu := Cpu(Running, Disabled, interrupt.Vector(), (cpu.sp - 2) % 0x10000);
      fault := AddMachineTiming(5, device.dma.active);
    }

    /** One whole step: owed byte, machine event, or the given instruction. */
    method ApplyStep(i: Instruction) returns (fault: Option<Fault>)
      modifies this
      ensures fault.None? <==> Step(old(State()), i).Ok?
      ensures fault.Some? ==> Step(old(State()), i) == Err(fault.value)
      ensures fault.None? ==> State() == Step(old(State()), i).value
    {
      hide Perform, AddTiming, DispatchStep, CopyByte, HaltIdle, LongSkip, PendingInterrupt, QuietLong;
      if device.dma.owed != 0 {
        fault := CopyDmaByte();
        return;
      }
      var event := Classify(State());
      if event.Err? { return Some(event.fault); }
      match event.value {
        case Some(Dispatch(interrupt)) => fault := DispatchInterrupt(interrupt);
        case Some(Wake) => cpu := cpu.(run := Running); fault := None;
        case Some(Skip(n)) =>
          if clock + n >= 0x1_0000_0000_0000_0000 { return Some(ClockOverflow); }
          clock := clock + n;
          device := QuietLong(device, n);
          fault := None;
        case Some(Idle) => fault := AddMachineTiming(HaltIdle(device), device.dma.active);
        case None =>
          var active := device.dma.active;
          fault := PerformAll(i.accesses);
          if fault.Some? { return; }
          cpu := i.after;
          fault := AddMachineTiming(i.mCycles, active);
      }
    }
  }
}
