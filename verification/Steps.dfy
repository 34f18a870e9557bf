/** One machine step: owed DMA bytes first, then interrupts and HALT events, then an instruction. */
module Steps {

  import opened Wrappers
  import opened Timer
  import opened Devices
  import opened HaltSkips
  import opened Bus
  import Mmio

  datatype Event = Dispatch(interrupt: Interrupt) | Wake | Skip(mCycles: nat) | Idle

  /** `classify_dmg_machine_event`; `None` lets an instruction run. */
  function ClassifyCpu(run: RunState, ime: Ime, d: Device): Result<Option<Event>> {
    match run
    case Stopped => Err(NotRunning)
    case Halted =>
      (match PendingInterrupt(d)
       case Some(interrupt) => if ime == Enabled then Ok(Some(Dispatch(interrupt))) else Ok(Some(Wake))
       case None =>
         match LongSkip(d)
         case Some(n) => Ok(Some(Skip(n)))
         case None => Ok(Some(Idle)))
    case _ =>
      if ime == Enabled && PendingInterrupt(d).Some? then Ok(Some(Dispatch(PendingInterrupt(d).value))) else Ok(None)
  }

  function Classify(m: Machine): Result<Option<Event>> { ClassifyCpu(m.cpu.run, m.cpu.ime, m.device) }

  /** What the decoded instruction does in this step: its bus accesses, M-cycles and CPU result, whatever they are. */
  datatype Instruction = Instruction(accesses: seq<BusAccess>, mCycles: nat, after: Cpu)

  predicate WellTimed(i: Instruction) {
    1 <= i.mCycles <= 6 && i.after.Valid() && forall k :: 0 <= k < |i.accesses| ==> i.accesses[k].Valid()
  }

  function Tick(m: Machine, n: nat): Result<Machine> {
    if m.clock + n < 0x1_0000_0000_0000_0000 then Ok(m.(clock := m.clock + n)) else Err(ClockOverflow)
  }

  /** Clock and devices move on, then the DMA bytes owed for the step are recorded. */
  function AddTiming(m: Machine, n: nat, dmaActive: bool): Result<Machine> {
    match Tick(m, n)
    case Err(fault) => Err(fault)
    case Ok(t) =>
      var d := t.device.AdvanceM(n);
      Ok(t.(device := d.(dma := d.dma.Schedule(n, dmaActive))))
  }

  /** The two pushes of an interrupt dispatch, high byte first. */
  function Pushes(m: Machine): seq<BusAccess> {
    [Store((m.cpu.sp - 1) % 0x10000, m.cpu.pc / 256), Store((m.cpu.sp - 2) % 0x10000, m.cpu.pc % 256)]
  }

  function Acknowledged(m: Machine, i: Interrupt): Machine {
    m.(device := m.device.(request := Mmio.AcknowledgeLine(m.device.request, i)))
  }

  /** The DMA flag is sampled after the pushes here, and before the accesses in an instruction. */
  function DispatchStep(m: Machine, i: Interrupt): Result<Machine> {
    match Perform(Acknowledged(m, i), Pushes(m))
    case Err(fault) => Err(fault)
    case Ok(n) =>
      AddTiming(n.(cpu := Cpu(Running, Disabled, i.Vector(), (m.cpu.sp - 2) % 0x10000)), 5, n.device.dma.active)
  }

  function InstructionStep(m: Machine, i: Instruction): Result<Machine> {
    match Perform(m, i.accesses)
    case Err(fault) => Err(fault)
    case Ok(n) => AddTiming(n.(cpu := i.after), i.mCycles, m.device.dma.active)
  }

  function SkipStep(m: Machine, n: nat): Result<Machine> {
    match Tick(m, n)
    case Err(fault) => Err(fault)
    case Ok(t) => Ok(t.(device := QuietLong(t.device, n)))
  }

  function EventStep(m: Machine, e: Event): Result<Machine> {
    match e
    case Dispatch(interrupt) => DispatchStep(m, interrupt)
    case Wake => Ok(m.(cpu := m.cpu.(run := Running)))
    case Skip(n) => SkipStep(m, n)
    case Idle => AddTiming(m, HaltIdle(m.device), m.device.dma.active)
  }

  /** `apply`: an owed byte goes before everything else. */
  function Step(m: Machine, i: Instruction): Result<Machine> {
    if m.device.dma.owed != 0 then CopyByte(m)
    else
      match Classify(m)
      case Err(fault) => Err(fault)
      case Ok(Some(e)) => EventStep(m, e)
      case Ok(None) => InstructionStep(m, i)
  }

  // ----- every reachable state is valid -----

  /** One access keeps the machine valid; the DMA cursor changes only by starting a transfer at rest. */
  lemma AccessKeepsValid(m: Machine, a: BusAccess)
    requires m.Valid() && a.Valid() && Perform1(m, a).Ok?
    ensures Perform1(m, a).value.Valid()
    ensures Perform1(m, a).value.device.dma == m.device.dma
            || (!m.device.dma.active && Perform1(m, a).value.device.dma.active
                && Perform1(m, a).value.device.dma.owed == 0)
  {
    hide Device.Valid, Mmio.Apply, Ppu.Mode, Ppu.Enabled, Mmio.WritePpu, Mmio.WriteRequest, Mmio.WriteSerial,
         Mmio.WritePlain, TimerState.Write, Mmio.JoypadFalls;
    match a
    case Load(address, buttons) =>
      Mmio.ApplyKeepsValid(m.device, Mmio.Sample(buttons)); SampleApplied(m.device, buttons);
    case Store(address, value) =>
      if address <= 0x7fff { ControlKeepsMapper(m.mapper, m.profile, address, value); }
      else if OwnerOf(address) == Registers { WriteApplied(m.device, address, value); }
    case _ =>
  }

  lemma SampleApplied(d: Device, buttons: int)
    ensures Mmio.Apply(d, Mmio.Sample(buttons)) == Mmio.SampleJoypad(d, buttons)
  {
  }

  lemma WriteApplied(d: Device, address: int, value: int)
    requires d.Valid() && 0 <= value < 256 && Mmio.WriteMmio(d, address, value).Some?
    requires d.dma.active ==> address != 0xff46
    ensures Mmio.WriteMmio(d, address, value).value.Valid()
  {
    hide Device.Valid, Mmio.WriteMmio;
    Mmio.ApplyKeepsValid(d, Mmio.Write(address, value));
  }

  lemma {:induction false} PerformKeepsValid(m: Machine, accesses: seq<BusAccess>)
    requires m.Valid() && (forall k :: 0 <= k < |accesses| ==> accesses[k].Valid()) && Perform(m, accesses).Ok?
    ensures Perform(m, accesses).value.Valid()
    ensures Perform(m, accesses).value.device.dma == m.device.dma
            || (!m.device.dma.active && Perform(m, accesses).value.device.dma.active
                && Perform(m, accesses).value.device.dma.owed == 0)
    decreases |accesses|
  {
    hide Perform1, Machine.Valid;
    if accesses != [] {
      AccessKeepsValid(m, accesses[0]);
      PerformKeepsValid(Perform1(m, accesses[0]).value, accesses[1..]);
    }
  }

  lemma TimingKeepsValid(m: Machine, n: nat, active: bool)
    requires m.Valid() && n <= 6 && m.device.dma.owed == 0 && (active ==> m.device.dma.active)
    requires AddTiming(m, n, active).Ok?
    ensures AddTiming(m, n, active).value.Valid()
  {
    hide Device.Valid, Device.AdvanceT;
    Mmio.ApplyKeepsValid(m.device, Mmio.Clock(n, active));
    ClockApplied(m.device, n, active);
  }

  lemma ClockApplied(d: Device, n: nat, active: bool)
    ensures Mmio.Apply(d, Mmio.Clock(n, active)) == d.AdvanceM(n).(dma := d.AdvanceM(n).dma.Schedule(n, active))
  {
  }

  /** Every accepted step keeps the machine valid. */
  lemma StepKeepsValid(m: Machine, i: Instruction)
    requires m.Valid() && WellTimed(i) && Step(m, i).Ok?
    ensures Step(m, i).value.Valid()
  {
    hide Device.Valid, Perform, AddTiming, HaltIdle, LongSkip, PendingInterrupt, QuietLong, Mmio.Apply;
    if m.device.dma.owed != 0 {
      OwedIsPositive(m.device);
      Mmio.ApplyKeepsValid(m.device, Mmio.CopyByte);
      CopyApplied(m.device);
    } else {
      match Classify(m).value
      case None =>
        PerformKeepsValid(m, i.accesses);
        TimingKeepsValid(Perform(m, i.accesses).value.(cpu := i.after), i.mCycles, m.device.dma.active);
      case Some(Dispatch(k)) => DispatchKeepsValid(m, k);
      case Some(Wake) =>
      case Some(Skip(n)) =>
        Mmio.ApplyKeepsValid(m.device, Mmio.Skip(n));
        SkipApplied(m.device, n);
      case Some(Idle) => TimingKeepsValid(m, HaltIdle(m.device), m.device.dma.active);
    }
  }

  lemma OwedIsPositive(d: Device)
    requires d.Valid() && d.dma.owed != 0
    ensures d.dma.owed > 0
  {
  }

  lemma CopyApplied(d: Device)
    ensures Mmio.Apply(d, Mmio.CopyByte) == d.(dma := d.dma.Complete())
  {
  }

  lemma SkipApplied(d: Device, n: nat)
    ensures Mmio.Apply(d, Mmio.Skip(n)) == QuietLong(d, n)
  {
  }

  lemma DispatchKeepsValid(m: Machine, k: Interrupt)
    requires m.Valid() && m.device.dma.owed == 0 && DispatchStep(m, k).Ok?
    ensures DispatchStep(m, k).value.Valid()
  {
    hide Perform, AddTiming, Device.Valid, Mmio.Apply;
    Mmio.ApplyKeepsValid(m.device, Mmio.Acknowledge(k));
    AcknowledgeApplied(m.device, k);
    var a := Acknowledged(m, k);
    PerformKeepsValid(a, Pushes(m));
    var n := Perform(a, Pushes(m)).value;
    TimingKeepsValid(n.(cpu := Cpu(Running, Disabled, k.Vector(), (m.cpu.sp - 2) % 0x10000)), 5, n.device.dma.active);
  }

  lemma AcknowledgeApplied(d: Device, k: Interrupt)
    ensures Mmio.Apply(d, Mmio.Acknowledge(k)) == d.(request := Mmio.AcknowledgeLine(d.request, k))
  {
  }

  /** A run: one instruction choice per step, used whenever the step is an instruction. */
  function Run(m: Machine, program: seq<Instruction>): Result<Machine>
    decreases |program|
  {
    if program == [] then Ok(m)
    else
      match Step(m, program[0])
      case Ok(n) => Run(n, program[1..])
      case Err(fault) => Err(fault)
  }

  predicate WellTimedAll(program: seq<Instruction>) {
    forall k :: 0 <= k < |program| ==> WellTimed(program[k])
  }

  lemma {:induction false} RunKeepsValid(m: Machine, program: seq<Instruction>)
    requires m.Valid() && WellTimedAll(program) && Run(m, program).Ok?
    ensures Run(m, program).value.Valid()
    decreases |program|
  {
    hide Step, Machine.Valid, WellTimed;
    if program != [] {
      StepKeepsValid(m, program[0]);
      RunKeepsValid(Step(m, program[0]).value, program[1..]);
    }
  }

  function PostBootMachine(profile: Profile, rom: map<int, int>, memory: map<int, int>): Machine {
    Machine(profile, Cpu(Running, Disabled, 0x100, 0xfffe), 0, Mmio.PostBoot, Mapper(false, 1, 0), rom, memory)
  }

  /** Every state a cartridge can reach from power-on meets the encoders' range checks. */
  lemma ReachableInRange(profile: Profile, rom: map<int, int>, memory: map<int, int>, program: seq<Instruction>)
    requires WellTimedAll(program) && Run(PostBootMachine(profile, rom, memory), program).Ok?
    ensures
      var n := Run(PostBootMachine(profile, rom, memory), program).value;
      var d := n.device;
      && 0 <= d.ppu.line <= 153 && 0 <= d.ppu.dot <= 455
      && (d.ppu.lcdControl < 128 ==> d.ppu.line == 0 && d.ppu.dot == 0)
      && 0 <= d.request.Byte() < 32 && 0 <= d.enable.Byte() < 32
      && 0 <= d.serial.remaining <= 4096
      && (d.serial.remaining != 0 ==> d.serial.control >= 128 && d.serial.control % 2 == 1)
      && 0 <= d.dma.owed <= 6 && d.dma.index + d.dma.owed <= 160 && (d.dma.active ==> d.dma.index < 160)
      && 0 <= d.timer.reloadPhase <= 5 && 0 <= d.timer.rawDiv < 0x1_0000
      && 1 <= n.mapper.romBank < profile.Banks() && n.mapper.select <= 15
  {
    hide Run, Step;
    RunKeepsValid(PostBootMachine(profile, rom, memory), program);
    RunKeepsProfile(PostBootMachine(profile, rom, memory), program);
  }

  lemma {:induction false} PerformKeepsProfile(m: Machine, accesses: seq<BusAccess>)
    requires Perform(m, accesses).Ok?
    ensures Perform(m, accesses).value.profile == m.profile && Perform(m, accesses).value.rom == m.rom
    ensures Perform(m, accesses).value.clock == m.clock
    decreases |accesses|
  {
    if accesses != [] { PerformKeepsProfile(Perform1(m, accesses[0]).value, accesses[1..]); }
  }

  lemma StepKeepsProfile(m: Machine, i: Instruction)
    requires Step(m, i).Ok?
    ensures Step(m, i).value.profile == m.profile && Step(m, i).value.rom == m.rom
  {
    hide Perform, PendingInterrupt, LongSkip, HaltIdle, QuietLong, Device.AdvanceM, SourceByte;
    if m.device.dma.owed == 0 {
      match Classify(m).value
      case None => PerformKeepsProfile(m, i.accesses);
      case Some(Dispatch(k)) => PerformKeepsProfile(Acknowledged(m, k), Pushes(m));
      case _ =>
    }
  }

  lemma {:induction false} RunKeepsProfile(m: Machine, program: seq<Instruction>)
    requires Run(m, program).Ok?
    ensures Run(m, program).value.profile == m.profile && Run(m, program).value.rom == m.rom
    decreases |program|
  {
    hide Step;
    if program != [] {
      StepKeepsProfile(m, program[0]);
      RunKeepsProfile(Step(m, program[0]).value, program[1..]);
    }
  }

  // ----- a long skip replaces an idle-only HALT -----

  /** A halted machine stepped by HALT-idle events alone until an enabled interrupt is pending, at most `limit`
      times. */
  function IdleOnly(m: Machine, limit: nat): Result<Machine>
    decreases limit
  {
    if m.device.Pending() || limit == 0 then Ok(m)
    else
      match EventStep(m, Idle)
      case Ok(n) => IdleOnly(n, limit - 1)
      case Err(fault) => Err(fault)
  }

  /** The machine `k` M-cycles on, or the overflow of its clock. */
  function Later(m: Machine, k: nat): Result<Machine> {
    match Tick(m, k)
    case Err(fault) => Err(fault)
    case Ok(t) => Ok(t.(device := m.device.AdvanceT(4 * k)))
  }

  lemma IdleEvent(m: Machine)
    requires m.device.Valid() && DmaQuiet(m.device.dma)
    ensures EventStep(m, Idle) == Later(m, HaltIdle(m.device))
    ensures m.device.AdvanceT(4 * HaltIdle(m.device)).Valid() && DmaQuiet(m.device.AdvanceT(4 * HaltIdle(m.device)).dma)
  {
    hide HaltIdle, Device.AdvanceT, Device.Valid;
    IdleStepAdvances(m.device);
    IdleIsTiming(m.device, HaltIdle(m.device));
  }

  lemma IdleIsTiming(d: Device, n: nat)
    requires n == HaltIdle(d)
    ensures IdleStep(d) == d.AdvanceM(n).(dma := d.AdvanceM(n).dma.Schedule(n, d.dma.active))
  {
    hide HaltIdle, Ticks, Requested, PpuTicks, VBlankRaised, StatRaised;
  }

  /** Two advances in a row; the clock overflows in either exactly when their sum does. */
  lemma LaterTwice(m: Machine, a: nat, b: nat)
    requires m.device.Valid()
    ensures Later(m, a).Ok? ==> Later(Later(m, a).value, b) == Later(m, a + b)
    ensures Later(m, a).Err? ==> Later(m, a + b) == Later(m, a)
  {
    hide Device.AdvanceT, Device.Valid;
    ValidSerial(m.device);
    AdvanceCompose(m.device, 4 * a, 4 * b);
    assert 4 * a + 4 * b == 4 * (a + b);
  }

  lemma ValidSerial(d: Device)
    requires d.Valid()
    ensures d.serial.remaining >= 0
  {
  }

  lemma LaterNothing(m: Machine)
    requires m.device.Valid() && m.clock < 0x1_0000_0000_0000_0000
    ensures Later(m, 0) == Ok(m)
  {
    AdvanceNothing(m.device);
  }

  /** However long the wait, idle events alone reach the same machine, or the same clock overflow. */
  lemma {:induction false} IdleOnlyReaches(m: Machine, k: nat, limit: nat)
    requires m.device.Valid() && DmaQuiet(m.device.dma) && FirstPending(m.device, k) && k <= limit
    requires m.clock < 0x1_0000_0000_0000_0000
    ensures IdleOnly(m, limit) == Later(m, k)
    decreases limit
  {
    hide Device.AdvanceT, Device.Pending, HaltIdle, DmaQuiet, Device.Valid, Later, EventStep;
    AdvanceZero(m.device);
    if k == 0 {
      assert PendingAfter(m.device, 0);
      LaterNothing(m);
    } else {
      assert !PendingAfter(m.device, 0);
      var c := HaltIdle(m.device);
      HaltIdleExact(m.device);
      IdleEvent(m);
      assert c <= k;
      FirstPendingShift(m.device, c, k);
      LaterTwice(m, c, k - c);
      if Later(m, c).Ok? {
        LaterParts(m, c);
        IdleOnlyReaches(Later(m, c).value, k - c, limit - 1);
      }
    }
  }

  lemma AdvanceZero(d: Device)
    requires d.Valid()
    ensures d.AdvanceT(4 * 0) == d
  {
    AdvanceNothing(d);
  }

  lemma LaterParts(m: Machine, c: nat)
    requires Later(m, c).Ok?
    ensures Later(m, c).value == m.(clock := m.clock + c, device := m.device.AdvanceT(4 * c))
    ensures Later(m, c).value.clock < 0x1_0000_0000_0000_0000
  {
    hide Device.AdvanceT;
  }

  /**
    * A long skip is the idle-only HALT it replaces: the same CPU, clock, devices, mapper and memory, and a clock
    * overflow in the one exactly when in the other. It stops at the first enabled interrupt.
    */
  lemma SkipIsIdleOnly(m: Machine, n: nat)
    requires m.Valid() && m.clock < 0x1_0000_0000_0000_0000 && Classify(m) == Ok(Some(Skip(n)))
    ensures EventStep(m, Skip(n)) == IdleOnly(m, n)
    ensures EventStep(m, Skip(n)).Ok? <==> m.clock + n < 0x1_0000_0000_0000_0000
    ensures FirstPending(m.device, n)
  {
    hide Device.AdvanceT, Device.Pending, LongSkip, IdleOnly, QuietLong, FirstPending, PendingInterrupt, Device.Valid,
         DmaQuiet;
    LongSkipExact(m.device, n);
    ValidSerial(m.device);
    QuietLongIsSingleSteps(m.device, n);
    IdleOnlyReaches(m, n, n);
  }
}
