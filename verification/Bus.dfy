/** The CPU bus: address owners, MBC3 mapping, access gating, and the deferred OAM copy. */
module Bus {

  import opened Wrappers
  import opened Devices
  import opened Mmio

  datatype Fault = CpuBusTaken | VideoTaken | RtcRegister | NoRegister | EchoArea | NoOwner | NotExecutable
                 | BadSource | NotRunning | ClockOverflow
                 | MissingWitness | UnexpectedWitness | AddressMismatch | Unauthenticated | WriteValueMismatch
                 | SurplusWitnesses
                 | UndefinedOpcode | MissingImmediate | StopPadding | BadMetadata | UndispatchedPrefix

  datatype Result<+T> = Ok(value: T) | Err(fault: Fault) {
    predicate IsFailure() { Err? }

    function PropagateFailure<U>(): Result<U>
      requires IsFailure()
    {
      Err(fault)
    }

    function Extract(): T
      requires !IsFailure()
    {
      value
    }
  }

  // ----- address map -----

  datatype Owner = RomArea | MemoryArea | EchoRam | Registers | Nobody

  function OwnerOf(address: int): Owner {
    if address <= 0x7fff then RomArea
    else if address <= 0xdfff || 0xfe00 <= address <= 0xfe9f || 0xff80 <= address <= 0xfffe then MemoryArea
    else if 0xe000 <= address <= 0xfdff then EchoRam
    else if 0xff00 <= address <= 0xff7f || address == 0xffff then Registers
    else Nobody
  }

  predicate HighRam(address: int) { 0xff80 <= address <= 0xfffe }
  predicate ObjectRam(address: int) { 0xfe00 <= address <= 0xfe9f }
  predicate ExternalArea(address: int) { 0xa000 <= address <= 0xbfff }

  // ----- MBC3 -----

  /** Sixteen or sixty-four ROM banks, with or without clock registers. */
  datatype Profile = Profile(oneMebibyte: bool, rtc: bool) {
    function Banks(): int { if oneMebibyte then 64 else 16 }
  }

  datatype Window = Ram(physical: int) | Rtc(select: int) | Closed

  datatype Mapper = Mapper(ramEnabled: bool, romBank: int, select: int) {

    predicate Valid(p: Profile) { 1 <= romBank < p.Banks() && 0 <= select <= 15 }

    function MapRom(address: int): int {
      if address < 0x4000 then address else romBank * 0x4000 + (address - 0x4000)
    }

    function External(p: Profile, address: int): Window {
      if !ramEnabled || !ExternalArea(address) then Closed
      else if select <= 3 then Ram(0x10000 + select * 0x2000 + (address - 0xa000))
      else if p.rtc && 8 <= select <= 12 then Rtc(select)
      else Closed
    }

    function Control(p: Profile, address: int, value: int): Mapper {
      if address <= 0x1fff then this.(ramEnabled := value % 16 == 10)
      else if address <= 0x3fff then
        var selected := value % p.Banks();
        this.(romBank := if selected == 0 then 1 else selected)
      else if address <= 0x5fff then this.(select := value % 16)
      else this
    }
  }

  lemma ControlKeepsMapper(m: Mapper, p: Profile, address: int, value: int)
    requires m.Valid(p) && 0 <= value < 256 && 0 <= address
    ensures m.Control(p, address, value).Valid(p)
  {
  }

  // ----- the machine -----

  datatype RunState = Running | Halted | HaltBug | Stopped
  datatype Ime = Disabled | EnablePending | Enabled

  datatype Cpu = Cpu(run: RunState, ime: Ime, pc: int, sp: int) {
    predicate Valid() { 0 <= pc < 0x10000 && 0 <= sp < 0x10000 }
  }

  datatype Machine = Machine(
    profile: Profile, cpu: Cpu, clock: nat, device: Device, mapper: Mapper, rom: map<int, int>, memory: map<int, int>)
  {
    predicate Valid() { cpu.Valid() && device.Valid() && mapper.Valid(profile) }
  }

  function At(bytes: map<int, int>, address: int): int {
    if address in bytes then bytes[address] else 0
  }

  /** One CPU access; a P1 load also takes the next committed button byte. */
  datatype BusAccess = Fetch(address: int) | Load(address: int, buttons: int) | Store(address: int, value: int) {
    predicate Valid() {
      && 0 <= address < 0x10000
      && (Load? ==> 0 <= buttons < 256)
      && (Store? ==> 0 <= value < 256)
    }
  }

  /** The two checks made before any CPU access. */
  function Blocked(d: Device, address: int): Option<Fault> {
    if d.dma.active && !HighRam(address) then Some(CpuBusTaken)
    else if 0x8000 <= address <= 0x9fff && d.ppu.Enabled() && d.ppu.Mode() == 3 then Some(VideoTaken)
    else if ObjectRam(address) && d.ppu.Enabled() && (d.ppu.Mode() == 2 || d.ppu.Mode() == 3) then Some(VideoTaken)
    else None
  }

  function FetchAt(m: Machine, address: int): Result<int> {
    match Blocked(m.device, address)
    case Some(fault) => Err(fault)
    case None =>
      match OwnerOf(address)
      case RomArea => Ok(At(m.rom, m.mapper.MapRom(address)))
      case MemoryArea => Ok(At(m.memory, address))
      case _ => Err(NotExecutable)
  }

  function LoadAt(m: Machine, address: int, buttons: int): Result<Machine> {
    match Blocked(m.device, address)
    case Some(fault) => Err(fault)
    case None =>
      if address == 0xff00 then Ok(m.(device := SampleJoypad(m.device, buttons)))
      else if ExternalArea(address) then
        if m.mapper.External(m.profile, address).Rtc? then Err(RtcRegister) else Ok(m)
      else
        match OwnerOf(address)
        case RomArea => Ok(m)
        case MemoryArea => Ok(m)
        case Registers => if Implemented(address) then Ok(m) else Err(NoRegister)
        case EchoRam => Err(EchoArea)
        case Nobody => Err(NoOwner)
  }

  function StoreAt(m: Machine, address: int, value: int): Result<Machine> {
    match Blocked(m.device, address)
    case Some(fault) => Err(fault)
    case None =>
      if address <= 0x7fff then Ok(m.(mapper := m.mapper.Control(m.profile, address, value)))
      else if ExternalArea(address) then
        match m.mapper.External(m.profile, address)
        case Ram(physical) => Ok(m.(memory := m.memory[physical := value]))
        case Rtc(_) => Err(RtcRegister)
        case Closed => Ok(m)
      else
        match OwnerOf(address)
        case MemoryArea => Ok(m.(memory := m.memory[address := value]))
        case Registers =>
          (match WriteMmio(m.device, address, value)
           case Some(d) => Ok(m.(device := d))
           case None => Err(NoRegister))
        case EchoRam => Err(EchoArea)
        case _ => Err(NoOwner)
  }

  function Perform1(m: Machine, access: BusAccess): Result<Machine> {
    match access
    case Fetch(address) => if FetchAt(m, address).Ok? then Ok(m) else Err(FetchAt(m, address).fault)
    case Load(address, buttons) => LoadAt(m, address, buttons)
    case Store(address, value) => StoreAt(m, address, value)
  }

  /** The accesses of one step, in order; the first fault rejects the step. */
  function Perform(m: Machine, accesses: seq<BusAccess>): Result<Machine>
    decreases |accesses|
  {
    if accesses == [] then Ok(m)
    else
      match Perform1(m, accesses[0])
      case Ok(n) => Perform(n, accesses[1..])
      case Err(fault) => Err(fault)
  }

  lemma {:induction false} PerformSplit(m: Machine, a: seq<BusAccess>, b: seq<BusAccess>)
    ensures Perform(m, a + b) == (if Perform(m, a).Ok? then Perform(Perform(m, a).value, b) else Perform(m, a))
    decreases |a|
  {
    hide Perform1;
    if a == [] {
      assert a + b == b;
    } else {
      assert (a + b)[0] == a[0] && (a + b)[1..] == a[1..] + b;
      if Perform1(m, a[0]).Ok? { PerformSplit(Perform1(m, a[0]).value, a[1..], b); }
    }
  }

  lemma PerformOne(m: Machine, a: BusAccess)
    ensures Perform(m, [a]) == Perform1(m, a)
  {
    hide Perform1;
    if Perform1(m, a).Ok? { assert Perform(Perform1(m, a).value, [a][1..]) == Perform1(m, a); }
  }

  // ----- OAM DMA -----

  /** The byte DMA would read at a source address under the current mapping. */
  function SourceByte(m: Machine, address: int): Result<int> {
    if address > 0xdf9f then Err(BadSource)
    else
      match OwnerOf(address)
      case RomArea => Ok(At(m.rom, m.mapper.MapRom(address)))
      case MemoryArea =>
        if ExternalArea(address) then
          match m.mapper.External(m.profile, address)
          case Ram(physical) => Ok(At(m.memory, physical))
          case Rtc(_) => Err(RtcRegister)
          case Closed => Err(BadSource)
        else Ok(At(m.memory, address))
      case _ => Err(BadSource)
  }

  function CopyByte(m: Machine): Result<Machine> {
    match SourceByte(m, m.device.dma.SourceAddress())
    case Err(fault) => Err(fault)
    case Ok(value) =>
      Ok(m.(memory := m.memory[m.device.dma.DestinationAddress() := value],
            device := m.device.(dma := m.device.dma.Complete())))
  }
}
