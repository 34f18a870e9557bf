/** The witness-driven step: authenticated bus accesses, instruction semantics, machine events and the final check. */
module Execution {

  import opened Wrappers
  import opened Devices
  import opened HaltSkips
  import opened Bus
  import opened Decimal
  import opened Field
  import Isa
  import Steps
  import Mmio

  // ----- state -----

  type Octet = x: int | 0 <= x < 256
  type Address = x: int | 0 <= x < 0x10000

  datatype Registers = Registers(a: Octet, b: Octet, c: Octet, d: Octet, e: Octet, h: Octet, l: Octet)

  datatype Core = Core(regs: Registers, flags: Flags, sp: Address, pc: Address, ime: Ime, run: RunState, mCycles: int)

  /** `root` commits to mutable memory and `romRoot` to the cartridge; `memory` and `rom` are the bytes they commit to.
      `audio` stands for the sound registers. */
  datatype Vm = Vm(
    profile: Profile, core: Core, device: Device, mapper: Mapper, audio: map<int, Octet>, romRoot: int, root: int,
    inputs: nat,
    rom: map<int, int>, memory: map<int, int>, busTranscript: seq<Event>, isaTranscript: seq<Isa.Operation>)

  datatype Read = Read(address: Address, physical: int, value: Octet, proof: int)
  datatype Update = Update(address: Address, physical: int, before: Octet, after: Octet, proof: int)

  datatype Witness = RomByte(rom: Read) | MemoryByte(cell: Read) | MemoryUpdate(update: Update)
    | InputByte(value: Octet)

  datatype Role = OpcodeRole | ImmediateRole | DataRole

  datatype Event =
    | RomFetch(role: Role, rom: Read) | MemoryFetch(role: Role, cell: Read) | DmaRomRead(rom: Read)
    | DmaMemoryRead(cell: Read)
    | DmaWrite(update: Update) | MemoryWrite(update: Update) | ControlWrite(address: Address, value: Octet)
    | OpenBusRead(address: Address) | IgnoredWrite(address: Address, value: Octet)
    | RegisterRead(address: Address, value: Octet)
    | RegisterWrite(address: Address, before: Octet, value: Octet)
    | JoypadRead(index: nat, beforeButtons: int, buttons: Octet, value: Octet)

  /** How supplied bytes are trusted: verified against the roots here, or by an enclosing lookup argument. */
  datatype Authority =
    | Lookup
    | Merkle(romOk: (int, Read) -> bool, cellOk: (int, Read) -> bool, updated: (int, Update) -> Option<int>)

  datatype Exec = Exec(vm: Vm, witnesses: seq<Witness>, events: seq<Event>)
  datatype Got<+T> = Got(exec: Exec, value: T)

  // ----- accounting -----

  /** The categories under which the block relation counts events; DMA copies belong to no instruction. */
  datatype Kind = OpcodeKind | ImmediateKind | LoadKind | StoreKind | DmaKind

  function RoleKind(role: Role): Kind {
    match role case OpcodeRole => OpcodeKind case ImmediateRole => ImmediateKind case DataRole => LoadKind
  }

  function KindOf(e: Event): Kind {
    match e
    case RomFetch(role, _) => RoleKind(role)
    case MemoryFetch(role, _) => RoleKind(role)
    case DmaRomRead(_) | DmaMemoryRead(_) | DmaWrite(_) => DmaKind
    case OpenBusRead(_) | RegisterRead(_, _) | JoypadRead(_, _, _, _) => LoadKind
    case MemoryWrite(_) | ControlWrite(_, _) | IgnoredWrite(_, _) | RegisterWrite(_, _, _) => StoreKind
  }

  function One(k: Kind, l: Kind): int { if k == l then 1 else 0 }

  /** The witness an event carries, if any. */
  function Carried1(e: Event): seq<Witness> {
    match e
    case RomFetch(_, rom) => [RomByte(rom)]
    case DmaRomRead(rom) => [RomByte(rom)]
    case MemoryFetch(_, cell) => [MemoryByte(cell)]
    case DmaMemoryRead(cell) => [MemoryByte(cell)]
    case DmaWrite(update) => [MemoryUpdate(update)]
    case MemoryWrite(update) => [MemoryUpdate(update)]
    case JoypadRead(_, _, buttons, _) => [InputByte(buttons)]
    case _ => []
  }

  function Count(k: Kind, events: seq<Event>): int {
    if events == [] then 0 else Count(k, events[..|events| - 1]) + One(k, KindOf(events[|events| - 1]))
  }

  function Carried(events: seq<Event>): seq<Witness> {
    if events == [] then [] else Carried(events[..|events| - 1]) + Carried1(events[|events| - 1])
  }

  /** `y` continues `x`: so many more events of each kind, and every witness used is carried by an event. */
  ghost predicate Traced(x: Exec, y: Exec, opcodes: int, immediates: int, loads: int, stores: int, dma: int) {
    && Count(OpcodeKind, y.events) == Count(OpcodeKind, x.events) + opcodes
    && Count(ImmediateKind, y.events) == Count(ImmediateKind, x.events) + immediates
    && Count(LoadKind, y.events) == Count(LoadKind, x.events) + loads
    && Count(StoreKind, y.events) == Count(StoreKind, x.events) + stores
    && |y.events| == |x.events| + opcodes + immediates + loads + stores + dma
    && Carried(y.events) + y.witnesses == Carried(x.events) + x.witnesses
  }

  ghost predicate TracedBy(x: Exec, y: Exec, k: Kind) {
    Traced(x, y, One(k, OpcodeKind), One(k, ImmediateKind), One(k, LoadKind), One(k, StoreKind), One(k, DmaKind))
  }

  /** The CPU access an event records; DMA copies are not the CPU's. */
  function Access1(e: Event): seq<BusAccess> {
    match e
    case RomFetch(role, rom) => [ReadAccess(role, rom.address)]
    case MemoryFetch(role, cell) => [ReadAccess(role, cell.address)]
    case DmaRomRead(_) | DmaMemoryRead(_) | DmaWrite(_) => []
    case OpenBusRead(address) => [BusAccess.Load(address, 0)]
    case RegisterRead(address, _) => [BusAccess.Load(address, 0)]
    case JoypadRead(_, _, buttons, _) => [BusAccess.Load(0xff00, buttons)]
    case MemoryWrite(update) => [Store(update.address, update.after)]
    case ControlWrite(address, value) => [Store(address, value)]
    case IgnoredWrite(address, value) => [Store(address, value)]
    case RegisterWrite(address, _, value) => [Store(address, value)]
  }

  function ReadAccess(role: Role, address: Address): BusAccess {
    if role == DataRole then BusAccess.Load(address, 0) else Fetch(address)
  }

  function Accesses(events: seq<Event>): seq<BusAccess> {
    if events == [] then [] else Accesses(events[..|events| - 1]) + Access1(events[|events| - 1])
  }

  /** The bus's view of the state, without the CPU and the clock. */
  function Shadow(v: Vm): Machine {
    Machine(v.profile, Cpu(Running, Disabled, 0, 0), 0, v.device, v.mapper, v.rom, v.memory)
  }

  /** Whatever the accesses so far did to the plain machine, the events of `y` continue it to `y`'s state. */
  ghost predicate Mirrors(x: Exec, y: Exec) {
    forall start :: Perform(start, Accesses(x.events)) == Ok(Shadow(x.vm)) ==>
      Perform(start, Accesses(y.events)) == Ok(Shadow(y.vm))
  }

  /** CPU accesses only; nothing inside a step moves the clock but its timing. */
  ghost predicate Grows(x: Exec, y: Exec, opcodes: int, immediates: int, loads: int, stores: int) {
    && Traced(x, y, opcodes, immediates, loads, stores, 0) && y.vm.core.mCycles == x.vm.core.mCycles
    && Mirrors(x, y)
  }

  /** Data accesses only. */
  ghost predicate Data(x: Exec, y: Exec, loads: int, stores: int) { Grows(x, y, 0, 0, loads, stores) }

  /** One event of a kind. */
  ghost predicate GrowsBy(x: Exec, y: Exec, k: Kind) {
    k != DmaKind && Grows(x, y, One(k, OpcodeKind), One(k, ImmediateKind), One(k, LoadKind), One(k, StoreKind))
  }

  function Emit(x: Exec, e: Event): Exec { x.(events := x.events + [e]) }

  lemma CountAppend(k: Kind, events: seq<Event>, e: Event)
    ensures Count(k, events + [e]) == Count(k, events) + One(k, KindOf(e))
  {
    assert (events + [e])[..|events|] == events;
  }

  lemma AccessesAppend(events: seq<Event>, e: Event)
    ensures Accesses(events + [e]) == Accesses(events) + Access1(e)
  {
    hide Access1;
    assert (events + [e])[..|events|] == events;
  }

  lemma CarriedAppend(x: Exec, e: Event)
    requires Carried1(e) <= x.witnesses
    ensures Carried(x.events + [e]) + x.witnesses[|Carried1(e)|..] == Carried(x.events) + x.witnesses
  {
    hide Carried1;
    var w := Carried1(e);
    assert (x.events + [e])[..|x.events|] == x.events;
    assert Carried(x.events + [e]) == Carried(x.events) + w;
    assert (Carried(x.events) + w) + x.witnesses[|w|..] == Carried(x.events) + (w + x.witnesses[|w|..]);
    assert w + x.witnesses[|w|..] == x.witnesses;
  }

  lemma OneKind(k: Kind)
    ensures One(k, OpcodeKind) + One(k, ImmediateKind) + One(k, LoadKind) + One(k, StoreKind) + One(k, DmaKind) == 1
    ensures forall l :: One(k, l) == One(l, k)
  {
  }

  lemma EmitTraced(x: Exec, e: Event)
    requires Carried1(e) <= x.witnesses
    ensures TracedBy(x, Emit(x.(witnesses := x.witnesses[|Carried1(e)|..]), e), KindOf(e))
  {
    hide Count, Carried, Carried1, One, KindOf;
    CountAppend(OpcodeKind, x.events, e);
    CountAppend(ImmediateKind, x.events, e);
    CountAppend(LoadKind, x.events, e);
    CountAppend(StoreKind, x.events, e);
    CarriedAppend(x, e);
    OneKind(KindOf(e));
  }

  /** An event mirrors the one access it records. */
  lemma EmitMirrors(x: Exec, y: Exec, e: Event, a: BusAccess)
    requires y.events == x.events + [e] && Access1(e) == [a] && Perform1(Shadow(x.vm), a) == Ok(Shadow(y.vm))
    ensures Mirrors(x, y)
  {
    hide Perform, Perform1, Access1, Accesses, Shadow;
    AccessesAppend(x.events, e);
    PerformOne(Shadow(x.vm), a);
    forall start | Perform(start, Accesses(x.events)) == Ok(Shadow(x.vm))
      ensures Perform(start, Accesses(y.events)) == Ok(Shadow(y.vm))
    {
      PerformSplit(start, Accesses(x.events), [a]);
    }
  }

  lemma GrowsTwice(x: Exec, y: Exec, z: Exec, o: int, i: int, l: int, s: int, o': int, i': int, l': int, s': int)
    requires Grows(x, y, o, i, l, s) && Grows(y, z, o', i', l', s')
    ensures Grows(x, z, o + o', i + i', l + l', s + s')
  {
    hide Count, Carried, Perform, Accesses, Shadow;
  }

  lemma DataTwice(x: Exec, y: Exec, z: Exec, loads: int, stores: int, moreLoads: int, moreStores: int)
    requires Data(x, y, loads, stores) && Data(y, z, moreLoads, moreStores)
    ensures Data(x, z, loads + moreLoads, stores + moreStores)
  {
    hide Grows;
    GrowsTwice(x, y, z, 0, 0, loads, stores, 0, 0, moreLoads, moreStores);
  }

  /** A change that neither the bus nor the clock sees. */
  lemma GrowsNothing(x: Exec, y: Exec)
    requires y.events == x.events && y.witnesses == x.witnesses && y.vm.core.mCycles == x.vm.core.mCycles
    requires Shadow(y.vm) == Shadow(x.vm)
    ensures Data(x, y, 0, 0)
  {
    hide Count, Carried, Perform, Accesses, Shadow;
  }

  /** The parts of the state that only Merkle mode moves. */
  datatype Anchor = Anchor(root: int, bus: seq<Event>, isa: seq<Isa.Operation>)

  /** The same executor over another memory root and transcripts. */
  function Lift(x: Exec, a: Anchor): Exec {
    x.(vm := x.vm.(root := a.root, busTranscript := a.bus, isaTranscript := a.isa))
  }
  function LiftGot<T>(g: Got<T>, a: Anchor): Got<T> { g.(exec := Lift(g.exec, a)) }

  // ----- witnesses -----

  function TakeRom(auth: Authority, x: Exec, address: int, physical: int): Result<Got<Read>> {
    if x.witnesses == [] then Err(MissingWitness)
    else if !x.witnesses[0].RomByte? then Err(UnexpectedWitness)
    else
      var r := x.witnesses[0].rom;
      if r.address != address || r.physical != physical then Err(AddressMismatch)
      else if auth.Merkle? && !auth.romOk(x.vm.romRoot, r) then Err(Unauthenticated)
      else Ok(Got(x.(witnesses := x.witnesses[1..]), r))
  }

  function TakeCell(auth: Authority, x: Exec, address: int, physical: int): Result<Got<Read>> {
    if x.witnesses == [] then Err(MissingWitness)
    else if !x.witnesses[0].MemoryByte? then Err(UnexpectedWitness)
    else
      var r := x.witnesses[0].cell;
      if r.address != address || r.physical != physical then Err(AddressMismatch)
      else if auth.Merkle? && !auth.cellOk(x.vm.root, r) then Err(Unauthenticated)
      else Ok(Got(x.(witnesses := x.witnesses[1..]), r))
  }

  /** A memory update: in Merkle mode the root moves on, in lookup mode it stays the external anchor. */
  function TakeUpdate(auth: Authority, x: Exec, address: int, physical: int, value: int): Result<Got<Update>> {
    if x.witnesses == [] then Err(MissingWitness)
    else if !x.witnesses[0].MemoryUpdate? then Err(UnexpectedWitness)
    else
      var u := x.witnesses[0].update;
      var rest := x.(witnesses := x.witnesses[1..], vm := x.vm.(memory := x.vm.memory[u.physical := u.after]));
      if u.address != address || u.physical != physical then Err(AddressMismatch)
      else if u.after != value then Err(WriteValueMismatch)
      else
        match auth
        case Lookup => Ok(Got(rest, u))
        case Merkle(_, _, updated) =>
          match updated(x.vm.root, u)
          case Some(next) => Ok(Got(rest.(vm := rest.vm.(root := next)), u))
          case None => Err(Unauthenticated)
  }

  // ----- bus accesses -----

  function FetchRom(auth: Authority, x: Exec, address: Address, role: Role): Result<Got<Octet>> {
    var got :- TakeRom(auth, x, address, x.vm.mapper.MapRom(address));
    Ok(Got(Emit(got.exec, RomFetch(role, got.value)), got.value.value))
  }

  function FetchCell(auth: Authority, x: Exec, address: Address, physical: int, role: Role): Result<Got<Octet>> {
    var got :- TakeCell(auth, x, address, physical);
    Ok(Got(Emit(got.exec, MemoryFetch(role, got.value)), got.value.value))
  }

  function FetchInstruction(auth: Authority, x: Exec, address: Address, role: Role): Result<Got<Octet>> {
    match Blocked(x.vm.device, address)
    case Some(fault) => Err(fault)
    case None =>
      match OwnerOf(address)
      case RomArea => FetchRom(auth, x, address, role)
      case MemoryArea => FetchCell(auth, x, address, address, role)
      case _ => Err(NotExecutable)
  }

  function ReadJoypad(x: Exec): Result<Got<Octet>> {
    if x.witnesses == [] then Err(MissingWitness)
    else if !x.witnesses[0].InputByte? then Err(UnexpectedWitness)
    else
      var buttons := x.witnesses[0].value;
      var d := Mmio.SampleJoypad(x.vm.device, buttons);
      var value := Mmio.VisibleJoypad(d.joypadSelect, d.joypadButtons) % 256;
      var y := x.(witnesses := x.witnesses[1..], vm := x.vm.(device := d, inputs := x.vm.inputs + 1));
      Ok(Got(Emit(y, JoypadRead(x.vm.inputs, x.vm.device.joypadButtons, buttons, value)), value))
  }

  /** The visible byte of an implemented register. */
  function RegisterByte(v: Vm, address: Address): Octet {
    var visible := Mmio.ReadMmio(v.device, address);
    if visible.Some? then visible.value % 256 else if address in v.audio then v.audio[address] else 0
  }

  function ReadRegister(x: Exec, address: Address): Result<Got<Octet>> {
    if !Mmio.Implemented(address) then Err(NoRegister)
    else Ok(Got(Emit(x, RegisterRead(address, RegisterByte(x.vm, address))), RegisterByte(x.vm, address)))
  }

  function ReadData(auth: Authority, x: Exec, address: Address): Result<Got<Octet>> {
    match Blocked(x.vm.device, address)
    case Some(fault) => Err(fault)
    case None =>
      if address == 0xff00 then ReadJoypad(x)
      else if ExternalArea(address) then
        match x.vm.mapper.External(x.vm.profile, address)
        case Ram(physical) => FetchCell(auth, x, address, physical, DataRole)
        case Rtc(_) => Err(RtcRegister)
        case Closed => Ok(Got(Emit(x, OpenBusRead(address)), 0xff))
      else
        match OwnerOf(address)
        case RomArea => FetchRom(auth, x, address, DataRole)
        case MemoryArea => FetchCell(auth, x, address, address, DataRole)
        case Registers => ReadRegister(x, address)
        case EchoRam => Err(EchoArea)
        case Nobody => Err(NoOwner)
  }

  function WriteCell(auth: Authority, x: Exec, address: Address, physical: int, value: Octet): Result<Exec> {
    var got :- TakeUpdate(auth, x, address, physical, value);
    Ok(Emit(got.exec, MemoryWrite(got.value)))
  }

  function WriteRegister(x: Exec, address: Address, value: Octet): Result<Exec> {
    match Mmio.WriteMmio(x.vm.device, address, value)
    case None => Err(NoRegister)
    case Some(d) =>
      var audio := if Mmio.Audio(address) then x.vm.audio[address := value] else x.vm.audio;
      Ok(Emit(x.(vm := x.vm.(device := d, audio := audio)), RegisterWrite(address, RegisterByte(x.vm, address), value)))
  }

  function WriteData(auth: Authority, x: Exec, address: Address, value: Octet): Result<Exec> {
    match Blocked(x.vm.device, address)
    case Some(fault) => Err(fault)
    case None =>
      if address <= 0x7fff then
        Ok(Emit(x.(vm := x.vm.(mapper := x.vm.mapper.Control(x.vm.profile, address, value))),
                ControlWrite(address, value)))
      else if ExternalArea(address) then
        match x.vm.mapper.External(x.vm.profile, address)
        case Ram(physical) => WriteCell(auth, x, address, physical, value)
        case Rtc(_) => Err(RtcRegister)
        case Closed => Ok(Emit(x, IgnoredWrite(address, value)))
      else
        match OwnerOf(address)
        case MemoryArea => WriteCell(auth, x, address, address, value)
        case Registers => WriteRegister(x, address, value)
        case EchoRam => Err(EchoArea)
        case _ => Err(NoOwner)
  }

  /** One owed OAM byte: source read, destination update, cursor step. */
  function CopyDmaByte(auth: Authority, x: Exec): Result<Exec> {
    var d := x.vm.device.dma;
    var source, destination := d.SourceAddress(), d.DestinationAddress();
    if source > 0xdf9f then Err(BadSource)
    else
      var read :- DmaSource(auth, x, source);
      var written :- TakeUpdate(auth, read.exec, destination, destination, read.value);
      var y := Emit(written.exec, DmaWrite(written.value));
      Ok(y.(vm := y.vm.(device := y.vm.device.(dma := y.vm.device.dma.Complete()))))
  }

  function DmaSource(auth: Authority, x: Exec, source: int): Result<Got<Octet>> {
    match OwnerOf(source)
    case RomArea =>
      var got :- TakeRom(auth, x, source, x.vm.mapper.MapRom(source));
      Ok(Got(Emit(got.exec, DmaRomRead(got.value)), got.value.value))
    case MemoryArea =>
      var physical :- DmaPhysical(x, source);
      var got :- TakeCell(auth, x, source, physical);
      Ok(Got(Emit(got.exec, DmaMemoryRead(got.value)), got.value.value))
    case _ => Err(BadSource)
  }

  function DmaPhysical(x: Exec, source: int): Result<int> {
    if !ExternalArea(source) then Ok(source)
    else
      match x.vm.mapper.External(x.vm.profile, source)
      case Ram(physical) => Ok(physical)
      case Rtc(_) => Err(RtcRegister)
      case Closed => Err(BadSource)
  }

  // ----- registers and arithmetic -----

  function Word(high: Octet, low: Octet): Address { 256 * high + low }
  function Wrap16(x: int): Address { x % 0x10000 }

  function Pair(c: Core, r: Isa.Reg16): Address {
    match r
    case BC => Word(c.regs.b, c.regs.c)
    case DE => Word(c.regs.d, c.regs.e)
    case HL => Word(c.regs.h, c.regs.l)
    case SP => c.sp
  }

  function SetPair(c: Core, r: Isa.Reg16, v: Address): (n: Core)
    ensures n.mCycles == c.mCycles
  {
    match r
    case BC => c.(regs := c.regs.(b := v / 256, c := v % 256))
    case DE => c.(regs := c.regs.(d := v / 256, e := v % 256))
    case HL => c.(regs := c.regs.(h := v / 256, l := v % 256))
    case SP => c.(sp := v)
  }

  function Reg(c: Core, r: Isa.Reg8): Octet {
    match r
    case A => c.regs.a
    case B => c.regs.b
    case C => c.regs.c
    case D => c.regs.d
    case E => c.regs.e
    case H => c.regs.h
    case L => c.regs.l
  }

  function SetReg(c: Core, r: Isa.Reg8, v: Octet): (n: Core)
    ensures n.mCycles == c.mCycles
  {
    match r
    case A => c.(regs := c.regs.(a := v))
    case B => c.(regs := c.regs.(b := v))
    case C => c.(regs := c.regs.(c := v))
    case D => c.(regs := c.regs.(d := v))
    case E => c.(regs := c.regs.(e := v))
    case H => c.(regs := c.regs.(h := v))
    case L => c.(regs := c.regs.(l := v))
  }

  function FlagByte(f: Flags): Octet {
    128 * AsCarry(f.zero) + 64 * AsCarry(f.subtract) + 32 * AsCarry(f.halfCarry) + 16 * AsCarry(f.carry)
  }
  function FlagsOf(v: int): Flags { Flags(v / 128 % 2 == 1, v / 64 % 2 == 1, v / 32 % 2 == 1, v / 16 % 2 == 1) }

  function StackValue(c: Core, s: Isa.StackPair): Address {
    match s
    case PairBC => Pair(c, Isa.BC)
    case PairDE => Pair(c, Isa.DE)
    case PairHL => Pair(c, Isa.HL)
    case PairAF => Word(c.regs.a, FlagByte(c.flags))
  }

  function SetStackPair(c: Core, s: Isa.StackPair, v: Address): (n: Core)
    ensures n.mCycles == c.mCycles
  {
    match s
    case PairBC => SetPair(c, Isa.BC, v)
    case PairDE => SetPair(c, Isa.DE, v)
    case PairHL => SetPair(c, Isa.HL, v)
    case PairAF => c.(regs := c.regs.(a := v / 256), flags := FlagsOf(v % 256))
  }

  predicate Holds(c: Core, k: Option<Isa.Condition>) {
    match k
    case None => true
    case Some(NotZero) => !c.flags.zero
    case Some(IfZero) => c.flags.zero
    case Some(NotCarry) => !c.flags.carry
    case Some(IfCarry) => c.flags.carry
  }

  /** AND, XOR and OR, bit by bit from the lowest. */
  function BitByBit(op: Isa.AluOp, x: int, y: int, n: nat): (r: int)
    ensures 0 <= r < Pow2(n)
    decreases n
  {
    if n == 0 then 0
    else
      var p, q := x % 2 == 1, y % 2 == 1;
      var bit := if op == Isa.AndA then p && q else if op == Isa.XorA then p != q else p || q;
      AsBit(bit) + 2 * BitByBit(op, x / 2, y / 2, n - 1)
  }

  function Bitwise(op: Isa.AluOp, x: Octet, y: Octet): Octet {
    PowerValues();
    BitByBit(op, x, y, 8)
  }

  function Logical(v: int, half: bool): ByteResult { ByteResult(v, Flags(v == 0, false, half, false)) }

  function ApplyAlu(op: Isa.AluOp, a: Octet, v: Octet, f: Flags): (r: ByteResult)
    ensures 0 <= r.value < 256
  {
    match op
    case AddA => Add(a, v, false)
    case AddCarryA => Add(a, v, f.carry)
    case SubA => Subtract(a, v, false)
    case SubCarryA => Subtract(a, v, f.carry)
    case CompareA => Subtract(a, v, false)
    case AndA => Logical(Bitwise(op, a, v), true)
    case XorA => Logical(Bitwise(op, a, v), false)
    case OrA => Logical(Bitwise(op, a, v), false)
  }

  function Increment(v: Octet, f: Flags): (r: ByteResult)
    ensures 0 <= r.value < 256
  {
    var r := (v + 1) % 256;
    ByteResult(r, Flags(r == 0, false, v % 16 == 15, f.carry))
  }

  function Decrement(v: Octet, f: Flags): (r: ByteResult)
    ensures 0 <= r.value < 256
  {
    var r := (v - 1) % 256;
    ByteResult(r, Flags(r == 0, true, v % 16 == 0, f.carry))
  }

  function Signed(v: Octet): int { if v >= 128 then v - 256 else v }

  function SpOffset(sp: Address, v: Octet): (Address, Flags) {
    (Wrap16(sp + Signed(v)), Flags(false, false, sp % 16 + v % 16 > 15, sp % 256 + v > 255))
  }

  function AddPair(x: Address, y: Address, f: Flags): (Address, Flags) {
    (Wrap16(x + y), Flags(f.zero, false, x % 0x1000 + y % 0x1000 > 0xfff, x + y > 0xffff))
  }

  /** Rotates and shifts; the bit operations have no result here. */
  function Rotate(cb: Isa.CbOp, v: Octet, carry: bool, zeroFromResult: bool): (b: Option<ByteResult>)
    ensures b.Some? ==> 0 <= b.value.value < 256
  {
    if cb.TestBit? || cb.ResetBit? || cb.SetBit? then None
    else
      var high, low := v >= 128, v % 2 == 1;
      var (r, out) :=
        match cb
        case Rlc => (2 * v % 256 + AsCarry(high), high)
        case Rrc => (v / 2 + 128 * AsCarry(low), low)
        case Rl => (2 * v % 256 + AsCarry(carry), high)
        case Rr => (v / 2 + 128 * AsCarry(carry), low)
        case Sla => (2 * v % 256, high)
        case Sra => (v / 2 + 128 * AsCarry(high), low)
        case Swap => (v % 16 * 16 + v / 16, false)
        case _ => (v / 2, low);
      Some(ByteResult(r, Flags(zeroFromResult && r == 0, false, false, out)))
  }

  predicate BitOn(v: Octet, bit: int) { 0 <= bit < 8 && v / Pow2(bit) % 2 == 1 }

  function WithBit(v: Octet, bit: int, on: bool): Octet {
    if !(0 <= bit < 8) || BitOn(v, bit) == on then v
    else
      BitFits(v, bit);
      if on then v + Pow2(bit) else v - Pow2(bit)
  }

  /** A clear bit leaves room for its weight, and a set one holds it. */
  lemma BitFits(v: int, bit: nat)
    requires 0 <= v < 256 && bit < 8
    ensures v / Pow2(bit) % 2 == 0 ==> v + Pow2(bit) < 256
    ensures v / Pow2(bit) % 2 == 1 ==> v >= Pow2(bit)
  {
    PowerValues();
    hide Pow2;
    if bit == 0 {} else if bit == 1 {} else if bit == 2 {} else if bit == 3 {}
    else if bit == 4 {} else if bit == 5 {} else if bit == 6 {} else {}
  }

  // ----- operand helpers -----

  function WithCore(x: Exec, c: Core): Exec { x.(vm := x.vm.(core := c)) }
  function SetFlags(x: Exec, f: Flags): Exec { WithCore(x, x.vm.core.(flags := f)) }

  function ImmediateByteOf(imm: seq<Octet>): Result<Octet> { if |imm| >= 1 then Ok(imm[0]) else Err(MissingImmediate) }
  function ImmediateWord(imm: seq<Octet>): Result<Address> {
    if |imm| >= 2 then Ok(Word(imm[1], imm[0])) else Err(MissingImmediate)
  }

  function ReadOperand(auth: Authority, x: Exec, o: Isa.Operand, imm: seq<Octet>): Result<Got<Octet>> {
    match o
    case Register(r) => Ok(Got(x, Reg(x.vm.core, r)))
    case ImmediateByte => var v :- ImmediateByteOf(imm); Ok(Got(x, v))
    case AtHL => ReadData(auth, x, Pair(x.vm.core, Isa.HL))
  }

  function WriteOperand(auth: Authority, x: Exec, o: Isa.Operand, v: Octet): Result<Exec> {
    match o
    case Register(r) => Ok(WithCore(x, SetReg(x.vm.core, r, v)))
    case ImmediateByte => Err(BadMetadata)
    case AtHL => WriteData(auth, x, Pair(x.vm.core, Isa.HL), v)
  }

  function TransferA(auth: Authority, x: Exec, address: Address, direction: Isa.Direction): Result<Exec> {
    match direction
    case IntoA =>
      var got :- ReadData(auth, x, address);
      Ok(WithCore(got.exec, SetReg(got.exec.vm.core, Isa.A, got.value)))
    case FromA => WriteData(auth, x, address, x.vm.core.regs.a)
  }

  function PushWord(auth: Authority, x: Exec, v: Address): Result<Exec> {
    var high := Wrap16(x.vm.core.sp - 1);
    var y :- WriteData(auth, x, high, v / 256);
    var low := Wrap16(high - 1);
    var z :- WriteData(auth, WithCore(y, y.vm.core.(sp := high)), low, v % 256);
    Ok(WithCore(z, z.vm.core.(sp := low)))
  }

  function PopWord(auth: Authority, x: Exec): Result<Got<Address>> {
    var address := x.vm.core.sp;
    var low :- ReadData(auth, x, address);
    var high :- ReadData(auth, low.exec, Wrap16(address + 1));
    Ok(Got(WithCore(high.exec, high.exec.vm.core.(sp := Wrap16(address + 2))), Word(high.value, low.value)))
  }

  function StoreSp(auth: Authority, x: Exec, address: Address): Result<Exec> {
    var y :- WriteData(auth, x, address, x.vm.core.sp % 256);
    WriteData(auth, y, Wrap16(address + 1), x.vm.core.sp / 256)
  }

  // ----- instruction semantics by class; the value tells whether a branch was taken -----

  function ExecuteControl(x: Exec, op: Isa.Operation): Result<Got<bool>> {
    var c := x.vm.core;
    match op
    case Nop => Ok(Got(x, false))
    case DecimalAdjustA =>
      var r := DecimalAdjust(c.regs.a, c.flags);
      Ok(Got(WithCore(x, SetReg(c, Isa.A, r.value).(flags := r.flags)), false))
    case ComplementA =>
      Ok(Got(WithCore(x, SetReg(c, Isa.A, 255 - c.regs.a).(flags := Flags(c.flags.zero, true, true, c.flags.carry))),
             false))
    case SetCarry => Ok(Got(SetFlags(x, Flags(c.flags.zero, false, false, true)), false))
    case ComplementCarry => Ok(Got(SetFlags(x, Flags(c.flags.zero, false, false, !c.flags.carry)), false))
    case _ => Err(BadMetadata)
  }

  function ExecuteLoad(auth: Authority, x: Exec, op: Isa.Operation, imm: seq<Octet>): Result<Got<bool>> {
    var c := x.vm.core;
    match op
    case StoreSpAbsolute =>
      var address :- ImmediateWord(imm);
      var y :- StoreSp(auth, x, address);
      Ok(Got(y, false))
    case Load16Immediate(pair) =>
      var v :- ImmediateWord(imm);
      Ok(Got(WithCore(x, SetPair(c, pair, v)), false))
    case LoadAccumulatorIndirect(via, direction) =>
      var y :- TransferA(auth, x,
                         Pair(c, if via == Isa.ViaBC then Isa.BC else if via == Isa.ViaDE then Isa.DE else Isa.HL),
                         direction);
      var hl := Pair(y.vm.core, Isa.HL);
      Ok(Got(if via == Isa.ViaHLIncrement then WithCore(y, SetPair(y.vm.core, Isa.HL, Wrap16(hl + 1)))
             else if via == Isa.ViaHLDecrement then WithCore(y, SetPair(y.vm.core, Isa.HL, Wrap16(hl - 1)))
             else y, false))
    case Load8Immediate(target) =>
      var v :- ImmediateByteOf(imm);
      var y :- WriteOperand(auth, x, target, v);
      Ok(Got(y, false))
    case Load8(target, source) =>
      var got :- ReadOperand(auth, x, source, imm);
      var y :- WriteOperand(auth, got.exec, target, got.value);
      Ok(Got(y, false))
    case HighImmediateLoad(direction) =>
      var v :- ImmediateByteOf(imm);
      var y :- TransferA(auth, x, 0xff00 + v, direction);
      Ok(Got(y, false))
    case LoadHlSpOffset =>
      var v :- ImmediateByteOf(imm);
      Ok(Got(WithCore(x, SetPair(c, Isa.HL, SpOffset(c.sp, v).0).(flags := SpOffset(c.sp, v).1)), false))
    case LoadSpHl => Ok(Got(WithCore(x, c.(sp := Pair(c, Isa.HL))), false))
    case HighCLoad(direction) =>
      var y :- TransferA(auth, x, 0xff00 + c.regs.c, direction);
      Ok(Got(y, false))
    case AbsoluteLoad(direction) =>
      var address :- ImmediateWord(imm);
      var y :- TransferA(auth, x, address, direction);
      Ok(Got(y, false))
    case _ => Err(BadMetadata)
  }

  function Modify(auth: Authority, x: Exec, target: Isa.Operand, imm: seq<Octet>, increment: bool): Result<Got<bool>> {
    var got :- ReadOperand(auth, x, target, imm);
    var f := got.exec.vm.core.flags;
    var r := if increment then Increment(got.value, f) else Decrement(got.value, f);
    var y :- WriteOperand(auth, got.exec, target, r.value);
    Ok(Got(SetFlags(y, r.flags), false))
  }

  function ExecuteAlu(auth: Authority, x: Exec, op: Isa.Operation, imm: seq<Octet>): Result<Got<bool>> {
    match op
    case Increment8(target) => Modify(auth, x, target, imm, true)
    case Decrement8(target) => Modify(auth, x, target, imm, false)
    case Alu8(alu, source) =>
      var got :- ReadOperand(auth, x, source, imm);
      var c := got.exec.vm.core;
      var r := ApplyAlu(alu, c.regs.a, got.value, c.flags);
      var after := if alu == Isa.CompareA then c else SetReg(c, Isa.A, r.value);
      Ok(Got(WithCore(got.exec, after.(flags := r.flags)), false))
    case _ => Err(BadMetadata)
  }

  function ExecuteAlu16(x: Exec, op: Isa.Operation, imm: seq<Octet>): Result<Got<bool>> {
    var c := x.vm.core;
    match op
    case AddHl(pair) =>
      var r := AddPair(Pair(c, Isa.HL), Pair(c, pair), c.flags);
      Ok(Got(WithCore(x, SetPair(c, Isa.HL, r.0).(flags := r.1)), false))
    case Increment16(pair) => Ok(Got(WithCore(x, SetPair(c, pair, Wrap16(Pair(c, pair) + 1))), false))
    case Decrement16(pair) => Ok(Got(WithCore(x, SetPair(c, pair, Wrap16(Pair(c, pair) - 1))), false))
    case AddSpOffset =>
      var v :- ImmediateByteOf(imm);
      Ok(Got(WithCore(x, c.(sp := SpOffset(c.sp, v).0, flags := SpOffset(c.sp, v).1)), false))
    case _ => Err(BadMetadata)
  }

  function ExecuteRotate(auth: Authority, x: Exec, op: Isa.Operation, imm: seq<Octet>): Result<Got<bool>> {
    match op
    case RotateAccumulator(cb) =>
      var c := x.vm.core;
      (match Rotate(cb, c.regs.a, c.flags.carry, false)
       case None => Err(BadMetadata)
       case Some(r) => Ok(Got(WithCore(x, SetReg(c, Isa.A, r.value).(flags := r.flags)), false)))
    case Cb(cb, target) =>
      var got :- ReadOperand(auth, x, target, imm);
      (match Rotate(cb, got.value, got.exec.vm.core.flags.carry, true)
       case None => Err(BadMetadata)
       case Some(r) =>
         var y :- WriteOperand(auth, got.exec, target, r.value);
         Ok(Got(SetFlags(y, r.flags), false)))
    case _ => Err(BadMetadata)
  }

  function ExecuteBit(auth: Authority, x: Exec, op: Isa.Operation, imm: seq<Octet>): Result<Got<bool>> {
    match op
    case Cb(cb, target) =>
      var got :- ReadOperand(auth, x, target, imm);
      (match cb
       case TestBit(bit) =>
         Ok(Got(SetFlags(got.exec, Flags(!BitOn(got.value, bit), false, true, got.exec.vm.core.flags.carry)), false))
       case ResetBit(bit) =>
         var y :- WriteOperand(auth, got.exec, target, WithBit(got.value, bit, false));
         Ok(Got(y, false))
       case SetBit(bit) =>
         var y :- WriteOperand(auth, got.exec, target, WithBit(got.value, bit, true));
         Ok(Got(y, false))
       case _ => Err(BadMetadata))
    case _ => Err(BadMetadata)
  }

  function ExecuteJump(x: Exec, op: Isa.Operation, imm: seq<Octet>): Result<Got<bool>> {
    var c := x.vm.core;
    match op
    case RelativeJump(condition) =>
      if !Holds(c, condition) then Ok(Got(x, false))
      else
        var v :- ImmediateByteOf(imm);
        Ok(Got(WithCore(x, c.(pc := Wrap16(c.pc + Signed(v)))), true))
    case JumpHl => Ok(Got(WithCore(x, c.(pc := Pair(c, Isa.HL))), true))
    case Jump(condition) =>
      if !Holds(c, condition) then Ok(Got(x, false))
      else
        var v :- ImmediateWord(imm);
        Ok(Got(WithCore(x, c.(pc := v)), true))
    case _ => Err(BadMetadata)
  }

  function ExecuteCallReturn(auth: Authority, x: Exec, op: Isa.Operation, imm: seq<Octet>): Result<Got<bool>> {
    var c := x.vm.core;
    match op
    case Return(condition) =>
      if !Holds(c, condition) then Ok(Got(x, false))
      else
        var got :- PopWord(auth, x);
        Ok(Got(WithCore(got.exec, got.exec.vm.core.(pc := got.value)), true))
    case ReturnFromInterrupt =>
      var got :- PopWord(auth, x);
      Ok(Got(WithCore(got.exec, got.exec.vm.core.(pc := got.value, ime := Enabled)), true))
    case Call(condition) =>
      if !Holds(c, condition) then Ok(Got(x, false))
      else
        var y :- PushWord(auth, x, c.pc);
        var v :- ImmediateWord(imm);
        Ok(Got(WithCore(y, y.vm.core.(pc := v)), true))
    case Restart(vector) =>
      var y :- PushWord(auth, x, c.pc);
      Ok(Got(WithCore(y, y.vm.core.(pc := Wrap16(vector))), true))
    case _ => Err(BadMetadata)
  }

  function ExecuteStack(auth: Authority, x: Exec, op: Isa.Operation): Result<Got<bool>> {
    match op
    case Pop(pair) =>
      var got :- PopWord(auth, x);
      Ok(Got(WithCore(got.exec, SetStackPair(got.exec.vm.core, pair, got.value)), false))
    case Push(pair) =>
      var y :- PushWord(auth, x, StackValue(x.vm.core, pair));
      Ok(Got(y, false))
    case _ => Err(BadMetadata)
  }

  function ExecuteInterrupt(x: Exec, op: Isa.Operation): Result<Got<bool>> {
    match op
    case DisableInterrupts => Ok(Got(WithCore(x, x.vm.core.(ime := Disabled)), false))
    case EnableInterrupts => Ok(Got(WithCore(x, x.vm.core.(ime := EnablePending)), false))
    case _ => Err(BadMetadata)
  }

  function ExecuteLowPower(x: Exec, op: Isa.Operation, imm: seq<Octet>): Result<Got<bool>> {
    match op
    case Halt => Ok(Got(WithCore(x, x.vm.core.(run := Halted)), false))
    case Stop =>
      var v :- ImmediateByteOf(imm);
      if v != 0 then Err(StopPadding) else Ok(Got(WithCore(x, x.vm.core.(run := Stopped)), false))
    case _ => Err(BadMetadata)
  }

  function Execute(auth: Authority, x: Exec, op: Isa.Operation, imm: seq<Octet>): Result<Got<bool>> {
    match Isa.ClassOf(op)
    case Control => ExecuteControl(x, op)
    case Load => ExecuteLoad(auth, x, op, imm)
    case Alu => ExecuteAlu(auth, x, op, imm)
    case Alu16 => ExecuteAlu16(x, op, imm)
    case RotateShift => ExecuteRotate(auth, x, op, imm)
    case Bit => ExecuteBit(auth, x, op, imm)
    case Jumps => ExecuteJump(x, op, imm)
    case CallReturn => ExecuteCallReturn(auth, x, op, imm)
    case Stack => ExecuteStack(auth, x, op)
    case Interrupts => ExecuteInterrupt(x, op)
    case LowPower => ExecuteLowPower(x, op, imm)
    case Prefix => Err(UndispatchedPrefix)
  }

  // ----- the step -----

  function FetchAndAdvance(auth: Authority, x: Exec, role: Role): Result<Got<Octet>> {
    var pc := x.vm.core.pc;
    var got :- FetchInstruction(auth, x, pc, role);
    Ok(got.(exec := WithCore(got.exec, got.exec.vm.core.(pc := Wrap16(pc + 1)))))
  }

  /** After the HALT bug the first fetch does not advance the program counter. */
  function FetchFirst(auth: Authority, x: Exec): Result<Got<Octet>> {
    if x.vm.core.run != HaltBug then FetchAndAdvance(auth, x, OpcodeRole)
    else
      var got :- FetchInstruction(auth, x, x.vm.core.pc, OpcodeRole);
      Ok(got.(exec := WithCore(got.exec, got.exec.vm.core.(run := Running))))
  }

  function FetchImmediates(auth: Authority, x: Exec, n: nat): Result<Got<seq<Octet>>>
    decreases n
  {
    if n == 0 then Ok(Got(x, []))
    else
      var first :- FetchAndAdvance(auth, x, ImmediateRole);
      var rest :- FetchImmediates(auth, first.exec, n - 1);
      Ok(Got(rest.exec, [first.value] + rest.value))
  }

  datatype Fetched = Fetched(decoded: Isa.Decoded, imm: seq<Octet>)

  function FetchWhole(auth: Authority, x: Exec): Result<Got<Fetched>> {
    var opcode :- FetchFirst(auth, x);
    if opcode.value == 0xcb then
      var second :- FetchAndAdvance(auth, opcode.exec, OpcodeRole);
      Ok(Got(second.exec, Fetched(Isa.DecodeCb(second.value), [])))
    else
      match Isa.DecodePrimary(opcode.value)
      case None => Err(UndefinedOpcode)
      case Some(d) =>
        var imm :- FetchImmediates(auth, opcode.exec, if d.length == 0 then 0 else d.length - 1);
        Ok(Got(imm.exec, Fetched(d, imm.value)))
  }

  function AddTiming(x: Exec, n: nat, dmaActive: bool): Result<Exec> {
    var c := x.vm.core;
    if c.mCycles + n >= 0x1_0000_0000_0000_0000 then Err(ClockOverflow)
    else
      var d := x.vm.device.AdvanceM(n);
      Ok(x.(vm := x.vm.(core := c.(mCycles := c.mCycles + n), device := d.(dma := d.dma.Schedule(n, dmaActive)))))
  }

  datatype Done = Done(exec: Exec, decoded: Isa.Decoded, branch: bool)

  /** Delayed interrupt enable and the HALT bug, after the instruction itself. */
  function AfterExecute(start: Vm, x: Exec, op: Isa.Operation): Exec {
    var c := x.vm.core;
    WithCore(x, if start.core.ime == EnablePending && op != Isa.DisableInterrupts then c.(ime := Enabled) else c)
  }

  function HaltBugAfter(start: Vm, x: Exec, op: Isa.Operation): Exec {
    if op == Isa.Halt && start.core.ime != Enabled && PendingInterrupt(start.device).Some?
      then WithCore(x, x.vm.core.(run := HaltBug)) else x
  }

  function InstructionStep(auth: Authority, x: Exec): Result<Done> {
    if x.vm.core.run != Running && x.vm.core.run != HaltBug then Err(NotRunning)
    else
      var fetched :- FetchWhole(auth, x);
      var d := fetched.value.decoded;
      var got :- Execute(auth, fetched.exec, d.op, fetched.value.imm);
      var timed :- AddTiming(AfterExecute(x.vm, got.exec, d.op), d.MCycles(got.value), x.vm.device.dma.active);
      Ok(Done(HaltBugAfter(x.vm, timed, d.op), d, got.value))
  }

  type MachineEvent = Steps.Event

  function Classify(v: Vm): Result<Option<MachineEvent>> { Steps.ClassifyCpu(v.core.run, v.core.ime, v.device) }

  function DispatchInterrupt(auth: Authority, x: Exec, i: Interrupt): Result<Exec> {
    var c := x.vm.core;
    var device := x.vm.device.(request := Mmio.AcknowledgeLine(x.vm.device.request, i));
    var started := x.(vm := x.vm.(core := c.(run := Running, ime := Disabled), device := device));
    var pushed :- PushWord(auth, started, c.pc);
    AddTiming(WithCore(pushed, pushed.vm.core.(pc := i.Vector())), 5, pushed.vm.device.dma.active)
  }

  function SkipHalt(x: Exec, n: nat): Result<Exec> {
    var c := x.vm.core;
    if c.mCycles + n >= 0x1_0000_0000_0000_0000 then Err(ClockOverflow)
    else Ok(x.(vm := x.vm.(core := c.(mCycles := c.mCycles + n), device := QuietLong(x.vm.device, n))))
  }

  function EventStep(auth: Authority, x: Exec, e: MachineEvent): Result<Exec> {
    match e
    case Dispatch(i) => DispatchInterrupt(auth, x, i)
    case Wake => Ok(WithCore(x, x.vm.core.(run := Running)))
    case Skip(n) => SkipHalt(x, n)
    case Idle => AddTiming(x, HaltIdle(x.vm.device), x.vm.device.dma.active)
  }

  /** The instruction whose row labels a machine event. */
  function Marker(e: Option<MachineEvent>): Isa.Operation {
    match e case None => Isa.Nop case Some(Dispatch(_)) => Isa.Restart(0x38) case _ => Isa.Halt
  }

  datatype Ran = Ran(exec: Exec, marker: Isa.Operation)

  function RunStep(auth: Authority, x: Exec): Result<Ran> {
    if x.vm.device.dma.owed != 0 then
      var y :- CopyDmaByte(auth, x);
      Ok(Ran(y, Marker(None)))
    else
      var e :- Classify(x.vm);
      match e
      case Some(event) =>
        var y :- EventStep(auth, x, event);
        Ok(Ran(y, Marker(e)))
      case None =>
        var done :- InstructionStep(auth, x);
        Ok(Ran(done.exec, done.decoded.op))
  }

  datatype Effects = Effects(vm: Vm, events: seq<Event>)

  /** Surplus witnesses reject the step; Merkle mode then extends both transcripts. */
  function Finalize(auth: Authority, r: Ran): Result<Effects> {
    if r.exec.witnesses != [] then Err(SurplusWitnesses)
    else
      var v := r.exec.vm;
      var moved := v.(busTranscript := v.busTranscript + r.exec.events, isaTranscript := v.isaTranscript + [r.marker]);
      Ok(Effects(if auth.Merkle? then moved else v, r.exec.events))
  }

  function Step(auth: Authority, v: Vm, witnesses: seq<Witness>): Result<Effects> {
    var ran :- RunStep(auth, Exec(v, witnesses, []));
    Finalize(auth, ran)
  }
}
