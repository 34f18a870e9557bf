/** Facts of every accepted step: declared bus accesses, witness accounting, and lookup mode refining Merkle mode. */
module StepFacts {

  import opened Wrappers
  import opened Devices
  import opened HaltSkips
  import opened Bus
  import opened Decimal
  import opened Execution
  import Isa
  import Mmio

  // Each lemma states both facts of one function: what it appends, and that lookup mode does the same over any root.

  lemma TakeRomFacts(m: Authority, x: Exec, a: int, p: int, root: Anchor)
    requires TakeRom(m, x, a, p).Ok?
    ensures x.witnesses != [] && x.witnesses[0] == RomByte(TakeRom(m, x, a, p).value.value)
    ensures TakeRom(m, x, a, p).value.value.address == a && TakeRom(m, x, a, p).value.value.physical == p
    ensures TakeRom(m, x, a, p).value.exec == x.(witnesses := x.witnesses[1..])
    ensures TakeRom(Lookup, Lift(x, root), a, p) == Ok(LiftGot(TakeRom(m, x, a, p).value, root))
  {
  }

  lemma TakeCellFacts(m: Authority, x: Exec, a: int, p: int, root: Anchor)
    requires TakeCell(m, x, a, p).Ok?
    ensures x.witnesses != [] && x.witnesses[0] == MemoryByte(TakeCell(m, x, a, p).value.value)
    ensures TakeCell(m, x, a, p).value.value.address == a && TakeCell(m, x, a, p).value.value.physical == p
    ensures TakeCell(m, x, a, p).value.exec == x.(witnesses := x.witnesses[1..])
    ensures TakeCell(Lookup, Lift(x, root), a, p) == Ok(LiftGot(TakeCell(m, x, a, p).value, root))
  {
  }

  lemma TakeUpdateFacts(m: Authority, x: Exec, a: int, p: int, v: int, root: Anchor)
    requires TakeUpdate(m, x, a, p, v).Ok?
    ensures x.witnesses != [] && x.witnesses[0] == MemoryUpdate(TakeUpdate(m, x, a, p, v).value.value)
    ensures TakeUpdate(m, x, a, p, v).value.value.address == a && TakeUpdate(m, x, a, p, v).value.value.after == v
    ensures
      var y := TakeUpdate(m, x, a, p, v).value.exec;
      y.witnesses == x.witnesses[1..] && y.events == x.events && y.vm == x.vm.(root := y.vm.root, memory := y.vm.memory)
    ensures TakeUpdate(Lookup, Lift(x, root), a, p, v) == Ok(LiftGot(TakeUpdate(m, x, a, p, v).value, root))
  {
  }

  /** Emitting an event for a witness just taken, and for the access it records. */
  lemma EmitTaken(x: Exec, y: Exec, e: Event, a: BusAccess)
    requires x.witnesses != [] && Carried1(e) == [x.witnesses[0]] && y.witnesses == x.witnesses[1..]
    requires y.events == x.events
    requires y.vm.core.mCycles == x.vm.core.mCycles && Access1(e) == [a]
    requires Perform1(Shadow(x.vm), a) == Ok(Shadow(y.vm))
    ensures GrowsBy(x, Emit(y, e), KindOf(e))
  {
    hide Mirrors, Count, Carried, Perform, Perform1, Shadow;
    EmitTraced(x, e);
    assert x.(witnesses := x.witnesses[1..]).events == y.events;
    EmitMirrors(x, Emit(y, e), e, a);
  }

  lemma EmitPlain(x: Exec, y: Exec, e: Event, a: BusAccess)
    requires Carried1(e) == [] && y.witnesses == x.witnesses && y.events == x.events
    requires y.vm.core.mCycles == x.vm.core.mCycles
    requires Access1(e) == [a] && Perform1(Shadow(x.vm), a) == Ok(Shadow(y.vm))
    ensures GrowsBy(x, Emit(y, e), KindOf(e))
  {
    hide Mirrors, Count, Carried, Perform, Perform1, Shadow;
    EmitTraced(x, e);
    assert x.witnesses[0..] == x.witnesses;
    EmitMirrors(x, Emit(y, e), e, a);
  }

  /** A DMA copy's event is not a CPU access. */
  lemma EmitCopied(x: Exec, y: Exec, e: Event)
    requires x.witnesses != [] && Carried1(e) == [x.witnesses[0]] && y.witnesses == x.witnesses[1..]
    requires y.events == x.events
    ensures TracedBy(x, Emit(y, e), KindOf(e))
  {
    EmitTraced(x, e);
    assert x.(witnesses := x.witnesses[1..]).events == y.events;
  }

  /** One load or one store is a data access. */
  lemma KindData(x: Exec, y: Exec)
    ensures GrowsBy(x, y, LoadKind) ==> Data(x, y, 1, 0)
    ensures GrowsBy(x, y, StoreKind) ==> Data(x, y, 0, 1)
  {
    hide Grows;
  }

  lemma FetchMirrors(v: Vm, a: Address)
    requires Blocked(v.device, a).None? && OwnerOf(a) in {RomArea, MemoryArea}
    ensures Perform1(Shadow(v), Fetch(a)) == Ok(Shadow(v))
  {
    hide Blocked;
  }

  lemma LoadMirrors(v: Vm, a: Address)
    requires Blocked(v.device, a).None? && a != 0xff00
    requires if ExternalArea(a) then !v.mapper.External(v.profile, a).Rtc?
             else OwnerOf(a) in {RomArea, MemoryArea} || (OwnerOf(a) == Owner.Registers && Mmio.Implemented(a))
    ensures Perform1(Shadow(v), BusAccess.Load(a, 0)) == Ok(Shadow(v))
  {
    hide Blocked, Mapper.External, Mmio.Implemented;
  }

  lemma FetchRomFacts(m: Authority, x: Exec, a: Address, role: Role, root: Anchor)
    requires FetchRom(m, x, a, role).Ok? && Perform1(Shadow(x.vm), ReadAccess(role, a)) == Ok(Shadow(x.vm))
    ensures GrowsBy(x, FetchRom(m, x, a, role).value.exec, RoleKind(role))
    ensures FetchRom(Lookup, Lift(x, root), a, role) == Ok(LiftGot(FetchRom(m, x, a, role).value, root))
  {
    hide Data, GrowsBy, TakeRom, Perform1, Shadow, ReadAccess;
    var p := x.vm.mapper.MapRom(a);
    TakeRomFacts(m, x, a, p, root);
    var got := TakeRom(m, x, a, p).value;
    EmitTaken(x, got.exec, RomFetch(role, got.value), ReadAccess(role, a));
  }

  lemma FetchCellFacts(m: Authority, x: Exec, a: Address, p: int, role: Role, root: Anchor)
    requires FetchCell(m, x, a, p, role).Ok? && Perform1(Shadow(x.vm), ReadAccess(role, a)) == Ok(Shadow(x.vm))
    ensures GrowsBy(x, FetchCell(m, x, a, p, role).value.exec, RoleKind(role))
    ensures FetchCell(Lookup, Lift(x, root), a, p, role) == Ok(LiftGot(FetchCell(m, x, a, p, role).value, root))
  {
    hide Data, GrowsBy, TakeCell, Perform1, Shadow, ReadAccess;
    TakeCellFacts(m, x, a, p, root);
    var got := TakeCell(m, x, a, p).value;
    EmitTaken(x, got.exec, MemoryFetch(role, got.value), ReadAccess(role, a));
  }

  lemma FetchInstructionFacts(m: Authority, x: Exec, a: Address, role: Role, root: Anchor)
    requires FetchInstruction(m, x, a, role).Ok? && role != DataRole
    ensures GrowsBy(x, FetchInstruction(m, x, a, role).value.exec, RoleKind(role))
    ensures FetchInstruction(Lookup, Lift(x, root), a, role) == Ok(LiftGot(FetchInstruction(m, x, a, role).value, root))
  {
    hide Data, GrowsBy, FetchRom, FetchCell, Blocked, OwnerOf, Perform1, Shadow;
    FetchMirrors(x.vm, a);
    if OwnerOf(a) == RomArea { FetchRomFacts(m, x, a, role, root); } else { FetchCellFacts(m, x, a, a, role, root); }
  }

  lemma ReadJoypadFacts(x: Exec, root: Anchor)
    requires ReadJoypad(x).Ok? && Blocked(x.vm.device, 0xff00).None?
    ensures Data(x, ReadJoypad(x).value.exec, 1, 0)
    ensures ReadJoypad(Lift(x, root)) == Ok(LiftGot(ReadJoypad(x).value, root))
  {
    hide Data, GrowsBy, Mmio.SampleJoypad, Mmio.VisibleJoypad, Blocked;
    var buttons := x.witnesses[0].value;
    var d := Mmio.SampleJoypad(x.vm.device, buttons);
    var y := x.(witnesses := x.witnesses[1..], vm := x.vm.(device := d, inputs := x.vm.inputs + 1));
    EmitTaken(x, y, JoypadRead(x.vm.inputs, x.vm.device.joypadButtons, buttons,
                               Mmio.VisibleJoypad(d.joypadSelect, d.joypadButtons) % 256),
                               BusAccess.Load(0xff00, buttons));
    KindData(x, ReadJoypad(x).value.exec);
  }

  lemma ReadRegisterFacts(x: Exec, a: Address, root: Anchor)
    requires ReadRegister(x, a).Ok? && Perform1(Shadow(x.vm), BusAccess.Load(a, 0)) == Ok(Shadow(x.vm))
    ensures Data(x, ReadRegister(x, a).value.exec, 1, 0)
    ensures ReadRegister(Lift(x, root), a) == Ok(LiftGot(ReadRegister(x, a).value, root))
  {
    hide Data, GrowsBy, Mmio.ReadMmio, Mmio.Implemented, Perform1, Shadow;
    EmitPlain(x, x, RegisterRead(a, RegisterByte(x.vm, a)), BusAccess.Load(a, 0));
    KindData(x, ReadRegister(x, a).value.exec);
  }

  lemma RegisterAllowed(x: Exec, a: Address)
    ensures ReadRegister(x, a).Ok? <==> Mmio.Implemented(a)
  {
    hide Mmio.Implemented, RegisterByte;
  }

  lemma ReadDataFacts(m: Authority, x: Exec, a: Address, root: Anchor)
    requires ReadData(m, x, a).Ok?
    ensures Data(x, ReadData(m, x, a).value.exec, 1, 0)
    ensures ReadData(Lookup, Lift(x, root), a) == Ok(LiftGot(ReadData(m, x, a).value, root))
  {
    hide Data, GrowsBy, FetchRom, FetchCell, ReadJoypad, ReadRegister, Blocked, OwnerOf, Mapper.External, ExternalArea,
         Perform1, Shadow;
    KindData(x, ReadData(m, x, a).value.exec);
    if a == 0xff00 {
      ReadJoypadFacts(x, root);
      return;
    }
    RegisterAllowed(x, a);
    LoadMirrors(x.vm, a);
    if ExternalArea(a) {
      match x.vm.mapper.External(x.vm.profile, a)
      case Ram(p) => FetchCellFacts(m, x, a, p, DataRole, root);
      case Closed => EmitPlain(x, x, OpenBusRead(a), BusAccess.Load(a, 0));
    } else {
      match OwnerOf(a)
      case RomArea => FetchRomFacts(m, x, a, DataRole, root);
      case MemoryArea => FetchCellFacts(m, x, a, a, DataRole, root);
      case Registers => ReadRegisterFacts(x, a, root);
    }
  }

  /** An accepted write is the plain machine's store. */
  lemma WriteMirrors(m: Authority, x: Exec, a: Address, v: Octet)
    requires WriteData(m, x, a, v).Ok?
    ensures Perform1(Shadow(x.vm), Store(a, v)) == Ok(Shadow(WriteData(m, x, a, v).value.vm))
    ensures WriteData(m, x, a, v).value.vm.core == x.vm.core
  {
    hide Blocked, Mapper.External, Mapper.Control, Mmio.WriteMmio, RegisterByte;
  }

  lemma WriteCellFacts(m: Authority, x: Exec, a: Address, p: int, v: Octet, root: Anchor)
    requires WriteCell(m, x, a, p, v).Ok?
    requires Perform1(Shadow(x.vm), Store(a, v)) == Ok(Shadow(WriteCell(m, x, a, p, v).value.vm))
    ensures Data(x, WriteCell(m, x, a, p, v).value, 0, 1)
    ensures WriteCell(Lookup, Lift(x, root), a, p, v) == Ok(Lift(WriteCell(m, x, a, p, v).value, root))
  {
    hide Data, GrowsBy, TakeUpdate, Perform1, Shadow;
    TakeUpdateFacts(m, x, a, p, v, root);
    var got := TakeUpdate(m, x, a, p, v).value;
    EmitTaken(x, got.exec, MemoryWrite(got.value), Store(a, v));
    KindData(x, WriteCell(m, x, a, p, v).value);
  }

  lemma WriteRegisterFacts(x: Exec, a: Address, v: Octet, root: Anchor)
    requires Execution.WriteRegister(x, a, v).Ok?
    requires Perform1(Shadow(x.vm), Store(a, v)) == Ok(Shadow(Execution.WriteRegister(x, a, v).value.vm))
    ensures Data(x, Execution.WriteRegister(x, a, v).value, 0, 1)
    ensures Execution.WriteRegister(Lift(x, root), a, v) == Ok(Lift(Execution.WriteRegister(x, a, v).value, root))
  {
    hide Data, GrowsBy, Mmio.WriteMmio, Mmio.Audio, Mmio.ReadMmio, Perform1, Shadow;
    var d := Mmio.WriteMmio(x.vm.device, a, v).value;
    var audio := if Mmio.Audio(a) then x.vm.audio[a := v] else x.vm.audio;
    EmitPlain(x, x.(vm := x.vm.(device := d, audio := audio)), RegisterWrite(a, RegisterByte(x.vm, a), v),
              Store(a, v));
    KindData(x, Execution.WriteRegister(x, a, v).value);
  }

  lemma WriteDataFacts(m: Authority, x: Exec, a: Address, v: Octet, root: Anchor)
    requires WriteData(m, x, a, v).Ok?
    ensures Data(x, WriteData(m, x, a, v).value, 0, 1)
    ensures WriteData(Lookup, Lift(x, root), a, v) == Ok(Lift(WriteData(m, x, a, v).value, root))
  {
    hide Data, GrowsBy, WriteCell, Execution.WriteRegister, Blocked, OwnerOf, Mapper.External, ExternalArea,
         Mapper.Control, Perform1, Shadow;
    WriteMirrors(m, x, a, v);
    KindData(x, WriteData(m, x, a, v).value);
    if a <= 0x7fff {
      EmitPlain(x, x.(vm := x.vm.(mapper := x.vm.mapper.Control(x.vm.profile, a, v))), ControlWrite(a, v), Store(a, v));
    } else if ExternalArea(a) {
      match x.vm.mapper.External(x.vm.profile, a)
      case Ram(p) => WriteCellFacts(m, x, a, p, v, root);
      case Closed => EmitPlain(x, x, IgnoredWrite(a, v), Store(a, v));
    } else {
      match OwnerOf(a)
      case MemoryArea => WriteCellFacts(m, x, a, a, v, root);
      case Registers => WriteRegisterFacts(x, a, v, root);
    }
  }

  // ----- operands -----

  /** Bus accesses an operand costs each way. */
  function Indirect(o: Isa.Operand): int { if o == Isa.AtHL then 1 else 0 }

  lemma ReadOperandFacts(m: Authority, x: Exec, o: Isa.Operand, imm: seq<Octet>, root: Anchor)
    requires ReadOperand(m, x, o, imm).Ok?
    ensures Data(x, ReadOperand(m, x, o, imm).value.exec, Indirect(o), 0)
    ensures ReadOperand(Lookup, Lift(x, root), o, imm) == Ok(LiftGot(ReadOperand(m, x, o, imm).value, root))
  {
    hide Data, GrowsBy, ReadData;
    if o == Isa.AtHL { ReadDataFacts(m, x, Pair(x.vm.core, Isa.HL), root); } else { GrowsNothing(x, x); }
  }

  lemma WriteOperandFacts(m: Authority, x: Exec, o: Isa.Operand, v: Octet, root: Anchor)
    requires WriteOperand(m, x, o, v).Ok?
    ensures Data(x, WriteOperand(m, x, o, v).value, 0, Indirect(o))
    ensures WriteOperand(Lookup, Lift(x, root), o, v) == Ok(Lift(WriteOperand(m, x, o, v).value, root))
  {
    hide Data, GrowsBy, WriteData;
    if o == Isa.AtHL {
      WriteDataFacts(m, x, Pair(x.vm.core, Isa.HL), v, root);
    } else {
      GrowsNothing(x, WriteOperand(m, x, o, v).value);
    }
  }

  /** A change of the CPU core alone neither emits nor takes. */
  lemma CoreOnly(x: Exec, y: Exec, c: Core, loads: int, stores: int)
    requires Data(x, y, loads, stores) && c.mCycles == y.vm.core.mCycles
    ensures Data(x, WithCore(y, c), loads, stores)
  {
  }

  function Inward(d: Isa.Direction): int { if d == Isa.IntoA then 1 else 0 }

  lemma TransferFacts(m: Authority, x: Exec, a: Address, d: Isa.Direction, root: Anchor)
    requires TransferA(m, x, a, d).Ok?
    ensures Data(x, TransferA(m, x, a, d).value, Inward(d), 1 - Inward(d))
    ensures TransferA(Lookup, Lift(x, root), a, d) == Ok(Lift(TransferA(m, x, a, d).value, root))
  {
    hide Data, GrowsBy, ReadData, WriteData;
    if d == Isa.IntoA {
      ReadDataFacts(m, x, a, root);
      var got := ReadData(m, x, a).value;
      CoreOnly(x, got.exec, SetReg(got.exec.vm.core, Isa.A, got.value), 1, 0);
    } else {
      WriteDataFacts(m, x, a, x.vm.core.regs.a, root);
    }
  }

  lemma PushFacts(m: Authority, x: Exec, v: Address, root: Anchor)
    requires PushWord(m, x, v).Ok?
    ensures Data(x, PushWord(m, x, v).value, 0, 2)
    ensures PushWord(Lookup, Lift(x, root), v) == Ok(Lift(PushWord(m, x, v).value, root))
  {
    hide Data, GrowsBy, WriteData;
    var high: int := Wrap16(x.vm.core.sp - 1);
    WriteDataFacts(m, x, high, v / 256, root);
    var y := WriteData(m, x, high, v / 256).value;
    var y' := WithCore(y, y.vm.core.(sp := high));
    CoreOnly(x, y, y.vm.core.(sp := high), 0, 1);
    var low := Wrap16(high - 1);
    WriteDataFacts(m, y', low, v % 256, root);
    var z := WriteData(m, y', low, v % 256).value;
    CoreOnly(y', z, z.vm.core.(sp := low), 0, 1);
    DataTwice(x, y', WithCore(z, z.vm.core.(sp := low)), 0, 1, 0, 1);
  }

  lemma PopFacts(m: Authority, x: Exec, root: Anchor)
    requires PopWord(m, x).Ok?
    ensures Data(x, PopWord(m, x).value.exec, 2, 0)
    ensures PopWord(Lookup, Lift(x, root)) == Ok(LiftGot(PopWord(m, x).value, root))
  {
    hide Data, GrowsBy, ReadData;
    var a: int := x.vm.core.sp;
    ReadDataFacts(m, x, a, root);
    var low := ReadData(m, x, a).value;
    ReadDataFacts(m, low.exec, Wrap16(a + 1), root);
    var high := ReadData(m, low.exec, Wrap16(a + 1)).value;
    DataTwice(x, low.exec, high.exec, 1, 0, 1, 0);
    CoreOnly(x, high.exec, high.exec.vm.core.(sp := Wrap16(a + 2)), 2, 0);
  }

  lemma StoreSpFacts(m: Authority, x: Exec, a: Address, root: Anchor)
    requires StoreSp(m, x, a).Ok?
    ensures Data(x, StoreSp(m, x, a).value, 0, 2)
    ensures StoreSp(Lookup, Lift(x, root), a) == Ok(Lift(StoreSp(m, x, a).value, root))
  {
    hide Data, GrowsBy, WriteData;
    WriteDataFacts(m, x, a, x.vm.core.sp % 256, root);
    var y := WriteData(m, x, a, x.vm.core.sp % 256).value;
    WriteDataFacts(m, y, Wrap16(a + 1), x.vm.core.sp / 256, root);
    DataTwice(x, y, StoreSp(m, x, a).value, 0, 1, 0, 1);
  }

  // ----- instructions -----

  /** The declared data accesses of an operation for a branch outcome. */
  function DeclaredLoads(op: Isa.Operation, branch: bool): int { Isa.DataPattern(op).Loads(branch) }
  function DeclaredStores(op: Isa.Operation, branch: bool): int { Isa.DataPattern(op).Stores(branch) }

  /** What each class lemma concludes. */
  ghost predicate ExecutesAs(x: Exec, op: Isa.Operation, r: Got<bool>) {
    Data(x, r.exec, DeclaredLoads(op, r.value), DeclaredStores(op, r.value))
  }

  /** Core updates commute with a change of root. */
  lemma LiftCore(x: Exec, root: Anchor)
    ensures Lift(x, root).vm.core == x.vm.core
    ensures forall c: Core :: WithCore(Lift(x, root), c) == Lift(WithCore(x, c), root)
  {
  }

  lemma CoreUpdates(x: Exec)
    ensures Data(x, x, 0, 0)
    ensures forall c: Core :: c.mCycles == x.vm.core.mCycles ==> Data(x, WithCore(x, c), 0, 0)
  {
    hide Data, GrowsBy;
    GrowsNothing(x, x);
    forall c: Core | c.mCycles == x.vm.core.mCycles
      ensures Data(x, WithCore(x, c), 0, 0)
    {
      GrowsNothing(x, WithCore(x, c));
    }
  }

  predicate Silent(op: Isa.Operation) {
    Isa.ClassOf(op) in {Isa.Control, Isa.Interrupts, Isa.LowPower, Isa.Alu16, Isa.Jumps} || op.RotateAccumulator?
    || op.Load16Immediate? || op.LoadHlSpOffset? || op.LoadSpHl?
  }

  lemma SilentDeclared(op: Isa.Operation, branch: bool)
    requires Silent(op)
    ensures DeclaredLoads(op, branch) == 0 && DeclaredStores(op, branch) == 0
  {
  }

  lemma SilentEnds(x: Exec, op: Isa.Operation, r: Got<bool>)
    requires Silent(op) && Data(x, r.exec, 0, 0)
    ensures ExecutesAs(x, op, r)
  {
    SilentDeclared(op, r.value);
  }

  lemma ControlFacts(x: Exec, op: Isa.Operation, root: Anchor)
    requires ExecuteControl(x, op).Ok?
    ensures ExecutesAs(x, op, ExecuteControl(x, op).value)
    ensures ExecuteControl(Lift(x, root), op) == Ok(LiftGot(ExecuteControl(x, op).value, root))
  {
    hide DecimalAdjust, Lift, WithCore, Data, Isa.DataPattern, ExecutesAs;
    LiftCore(x, root);
    CoreUpdates(x);
    SilentEnds(x, op, ExecuteControl(x, op).value);
  }

  lemma InterruptFacts(x: Exec, op: Isa.Operation, root: Anchor)
    requires ExecuteInterrupt(x, op).Ok?
    ensures ExecutesAs(x, op, ExecuteInterrupt(x, op).value)
    ensures ExecuteInterrupt(Lift(x, root), op) == Ok(LiftGot(ExecuteInterrupt(x, op).value, root))
  {
    hide Lift, WithCore, Data, Isa.DataPattern, ExecutesAs;
    LiftCore(x, root);
    CoreUpdates(x);
    SilentEnds(x, op, ExecuteInterrupt(x, op).value);
  }

  lemma LowPowerFacts(x: Exec, op: Isa.Operation, imm: seq<Octet>, root: Anchor)
    requires ExecuteLowPower(x, op, imm).Ok?
    ensures ExecutesAs(x, op, ExecuteLowPower(x, op, imm).value)
    ensures ExecuteLowPower(Lift(x, root), op, imm) == Ok(LiftGot(ExecuteLowPower(x, op, imm).value, root))
  {
    hide Lift, WithCore, Data, Isa.DataPattern, ExecutesAs;
    LiftCore(x, root);
    CoreUpdates(x);
    SilentEnds(x, op, ExecuteLowPower(x, op, imm).value);
  }

  lemma Alu16Facts(x: Exec, op: Isa.Operation, imm: seq<Octet>, root: Anchor)
    requires ExecuteAlu16(x, op, imm).Ok?
    ensures ExecutesAs(x, op, ExecuteAlu16(x, op, imm).value)
    ensures ExecuteAlu16(Lift(x, root), op, imm) == Ok(LiftGot(ExecuteAlu16(x, op, imm).value, root))
  {
    hide AddPair, SpOffset, SetPair, Pair, Wrap16, Lift, WithCore, Data, Isa.DataPattern, ExecutesAs;
    LiftCore(x, root);
    CoreUpdates(x);
    SilentEnds(x, op, ExecuteAlu16(x, op, imm).value);
  }

  lemma JumpFacts(x: Exec, op: Isa.Operation, imm: seq<Octet>, root: Anchor)
    requires ExecuteJump(x, op, imm).Ok?
    ensures ExecutesAs(x, op, ExecuteJump(x, op, imm).value)
    ensures ExecuteJump(Lift(x, root), op, imm) == Ok(LiftGot(ExecuteJump(x, op, imm).value, root))
  {
    hide Holds, Wrap16, Signed, Pair, Lift, WithCore, Data, Isa.DataPattern, ExecutesAs;
    LiftCore(x, root);
    CoreUpdates(x);
    SilentEnds(x, op, ExecuteJump(x, op, imm).value);
  }

  // Declared accesses, operation by operation.

  lemma StoreSpDeclared(branch: bool)
    ensures DeclaredLoads(Isa.StoreSpAbsolute, branch) == 0 && DeclaredStores(Isa.StoreSpAbsolute, branch) == 2
  {
  }

  lemma TransferDeclared(op: Isa.Operation, branch: bool)
    requires op.LoadAccumulatorIndirect? || op.HighImmediateLoad? || op.HighCLoad? || op.AbsoluteLoad?
    ensures DeclaredLoads(op, branch) == Inward(op.direction) && DeclaredStores(op, branch) == 1 - Inward(op.direction)
  {
  }

  lemma LoadImmediateDeclared(target: Isa.Operand, branch: bool)
    ensures DeclaredLoads(Isa.Load8Immediate(target), branch) == 0
    ensures DeclaredStores(Isa.Load8Immediate(target), branch) == Indirect(target)
  {
  }

  lemma CopyDeclared(target: Isa.Operand, source: Isa.Operand, branch: bool)
    requires !(target == Isa.AtHL && source == Isa.AtHL)
    ensures DeclaredLoads(Isa.Load8(target, source), branch) == Indirect(source)
    ensures DeclaredStores(Isa.Load8(target, source), branch) == Indirect(target)
  {
  }

  lemma ModifyDeclared(target: Isa.Operand, branch: bool)
    ensures DeclaredLoads(Isa.Increment8(target), branch) == Indirect(target)
    ensures DeclaredStores(Isa.Increment8(target), branch) == Indirect(target)
    ensures DeclaredLoads(Isa.Decrement8(target), branch) == Indirect(target)
    ensures DeclaredStores(Isa.Decrement8(target), branch) == Indirect(target)
  {
  }

  lemma AluDeclared(alu: Isa.AluOp, source: Isa.Operand, branch: bool)
    ensures DeclaredLoads(Isa.Alu8(alu, source), branch) == Indirect(source)
    ensures DeclaredStores(Isa.Alu8(alu, source), branch) == 0
  {
  }

  lemma CbDeclared(cb: Isa.CbOp, target: Isa.Operand, branch: bool)
    ensures DeclaredLoads(Isa.Cb(cb, target), branch) == Indirect(target)
    ensures DeclaredStores(Isa.Cb(cb, target), branch) == if cb.TestBit? then 0 else Indirect(target)
  {
  }

  lemma EndsAs(x: Exec, op: Isa.Operation, r: Got<bool>, loads: int, stores: int)
    requires DeclaredLoads(op, r.value) == loads && DeclaredStores(op, r.value) == stores
    requires Data(x, r.exec, loads, stores)
    ensures ExecutesAs(x, op, r)
  {
  }

  lemma TransferLoadFacts(m: Authority, x: Exec, op: Isa.Operation, imm: seq<Octet>, root: Anchor)
    requires op.HighImmediateLoad? || op.HighCLoad? || op.AbsoluteLoad? || op.StoreSpAbsolute?
    requires ExecuteLoad(m, x, op, imm).Ok?
    ensures ExecutesAs(x, op, ExecuteLoad(m, x, op, imm).value)
    ensures ExecuteLoad(Lookup, Lift(x, root), op, imm) == Ok(LiftGot(ExecuteLoad(m, x, op, imm).value, root))
  {
    hide Data, GrowsBy, TransferA, StoreSp, Isa.DataPattern, ExecutesAs, Lift, WithCore, DeclaredLoads, DeclaredStores;
    LiftCore(x, root);
    var r := ExecuteLoad(m, x, op, imm).value;
    if op.StoreSpAbsolute? { StoreSpDeclared(r.value); } else { TransferDeclared(op, r.value); }
    match op
    case StoreSpAbsolute => StoreSpFacts(m, x, ImmediateWord(imm).value, root); EndsAs(x, op, r, 0, 2);
    case HighImmediateLoad(d) =>
      TransferFacts(m, x, 0xff00 + ImmediateByteOf(imm).value, d, root); EndsAs(x, op, r, Inward(d), 1 - Inward(d));
    case HighCLoad(d) =>
      TransferFacts(m, x, 0xff00 + x.vm.core.regs.c, d, root); EndsAs(x, op, r, Inward(d), 1 - Inward(d));
    case AbsoluteLoad(d) =>
      TransferFacts(m, x, ImmediateWord(imm).value, d, root); EndsAs(x, op, r, Inward(d), 1 - Inward(d));
  }

  lemma IndirectLoadFacts(m: Authority, x: Exec, op: Isa.Operation, imm: seq<Octet>, root: Anchor)
    requires op.LoadAccumulatorIndirect? && ExecuteLoad(m, x, op, imm).Ok?
    ensures ExecutesAs(x, op, ExecuteLoad(m, x, op, imm).value)
    ensures ExecuteLoad(Lookup, Lift(x, root), op, imm) == Ok(LiftGot(ExecuteLoad(m, x, op, imm).value, root))
  {
    hide Data, GrowsBy, TransferA, Isa.DataPattern, ExecutesAs, Lift, WithCore, DeclaredLoads, DeclaredStores, SetPair,
         Pair, Wrap16;
    LiftCore(x, root);
    var r := ExecuteLoad(m, x, op, imm).value;
    TransferDeclared(op, r.value);
    var a := Pair(x.vm.core, if op.via == Isa.ViaBC then Isa.BC else if op.via == Isa.ViaDE then Isa.DE else Isa.HL);
    TransferFacts(m, x, a, op.direction, root);
    var y := TransferA(m, x, a, op.direction).value;
    LiftCore(y, root);
    CoreAfter(x, y, Inward(op.direction), 1 - Inward(op.direction));
    EndsAs(x, op, r, Inward(op.direction), 1 - Inward(op.direction));
  }

  lemma CoreAfter(x: Exec, y: Exec, loads: int, stores: int)
    requires Data(x, y, loads, stores)
    ensures forall c: Core :: c.mCycles == y.vm.core.mCycles ==> Data(x, WithCore(y, c), loads, stores)
  {
  }

  lemma OperandLoadFacts(m: Authority, x: Exec, op: Isa.Operation, imm: seq<Octet>, root: Anchor)
    requires (op.Load8Immediate? || op.Load8?) && op != Isa.Load8(Isa.AtHL, Isa.AtHL) && ExecuteLoad(m, x, op, imm).Ok?
    ensures ExecutesAs(x, op, ExecuteLoad(m, x, op, imm).value)
    ensures ExecuteLoad(Lookup, Lift(x, root), op, imm) == Ok(LiftGot(ExecuteLoad(m, x, op, imm).value, root))
  {
    hide Data, GrowsBy, WriteOperand, ReadOperand, Isa.DataPattern, ExecutesAs, Lift, DeclaredLoads, DeclaredStores,
         Indirect, WithCore, TransferA, StoreSp, SetPair, Pair, SpOffset;
    LiftCore(x, root);
    var r := ExecuteLoad(m, x, op, imm).value;
    if op.Load8Immediate? {
      LoadImmediateDeclared(op.target, r.value);
      WriteOperandFacts(m, x, op.target, ImmediateByteOf(imm).value, root);
      EndsAs(x, op, r, 0, Indirect(op.target));
    } else {
      CopyDeclared(op.target, op.source, r.value);
      ReadOperandFacts(m, x, op.source, imm, root);
      var got := ReadOperand(m, x, op.source, imm).value;
      WriteOperandFacts(m, got.exec, op.target, got.value, root);
      DataTwice(x, got.exec, r.exec, Indirect(op.source), 0, 0, Indirect(op.target));
      EndsAs(x, op, r, Indirect(op.source), Indirect(op.target));
    }
  }

  lemma PlainLoadFacts(m: Authority, x: Exec, op: Isa.Operation, imm: seq<Octet>, root: Anchor)
    requires (op.Load16Immediate? || op.LoadHlSpOffset? || op.LoadSpHl?) && ExecuteLoad(m, x, op, imm).Ok?
    ensures ExecutesAs(x, op, ExecuteLoad(m, x, op, imm).value)
    ensures ExecuteLoad(Lookup, Lift(x, root), op, imm) == Ok(LiftGot(ExecuteLoad(m, x, op, imm).value, root))
  {
    hide Data, GrowsBy, Isa.DataPattern, ExecutesAs, Lift, WithCore, SetPair, Pair, SpOffset, TransferA, StoreSp,
         ReadOperand, WriteOperand;
    LiftCore(x, root);
    CoreUpdates(x);
    SilentEnds(x, op, ExecuteLoad(m, x, op, imm).value);
  }

  lemma LoadFacts(m: Authority, x: Exec, op: Isa.Operation, imm: seq<Octet>, root: Anchor)
    requires Isa.ClassOf(op) == Isa.Load && ExecuteLoad(m, x, op, imm).Ok? && op != Isa.Load8(Isa.AtHL, Isa.AtHL)
    ensures ExecutesAs(x, op, ExecuteLoad(m, x, op, imm).value)
    ensures ExecuteLoad(Lookup, Lift(x, root), op, imm) == Ok(LiftGot(ExecuteLoad(m, x, op, imm).value, root))
  {
    hide ExecuteLoad, ExecutesAs, Lift;
    if op.Load16Immediate? || op.LoadHlSpOffset? || op.LoadSpHl? { PlainLoadFacts(m, x, op, imm, root); }
    else if op.Load8Immediate? || op.Load8? { OperandLoadFacts(m, x, op, imm, root); }
    else if op.LoadAccumulatorIndirect? { IndirectLoadFacts(m, x, op, imm, root); }
    else { TransferLoadFacts(m, x, op, imm, root); }
  }

  lemma ModifyFacts(m: Authority, x: Exec, target: Isa.Operand, imm: seq<Octet>, increment: bool, root: Anchor)
    requires Modify(m, x, target, imm, increment).Ok?
    ensures Data(x, Modify(m, x, target, imm, increment).value.exec, Indirect(target), Indirect(target))
    ensures !Modify(m, x, target, imm, increment).value.value
    ensures Modify(Lookup, Lift(x, root), target, imm, increment)
            == Ok(LiftGot(Modify(m, x, target, imm, increment).value, root))
  {
    hide Data, GrowsBy, WriteOperand, ReadOperand, Increment, Decrement, Lift, WithCore;
    ReadOperandFacts(m, x, target, imm, root);
    var got := ReadOperand(m, x, target, imm).value;
    LiftCore(got.exec, root);
    var f := got.exec.vm.core.flags;
    var r := if increment then Increment(got.value, f) else Decrement(got.value, f);
    WriteOperandFacts(m, got.exec, target, r.value, root);
    var y := WriteOperand(m, got.exec, target, r.value).value;
    LiftCore(y, root);
    DataTwice(x, got.exec, y, Indirect(target), 0, 0, Indirect(target));
    CoreAfter(x, y, Indirect(target), Indirect(target));
  }

  lemma Alu8Facts(m: Authority, x: Exec, op: Isa.Operation, imm: seq<Octet>, root: Anchor)
    requires op.Alu8? && ExecuteAlu(m, x, op, imm).Ok?
    ensures ExecutesAs(x, op, ExecuteAlu(m, x, op, imm).value)
    ensures ExecuteAlu(Lookup, Lift(x, root), op, imm) == Ok(LiftGot(ExecuteAlu(m, x, op, imm).value, root))
  {
    hide Data, GrowsBy, ReadOperand, ApplyAlu, Lift, WithCore, SetReg, Isa.DataPattern, DeclaredLoads, DeclaredStores,
         ExecutesAs, Indirect;
    var r := ExecuteAlu(m, x, op, imm).value;
    AluDeclared(op.alu, op.source, r.value);
    ReadOperandFacts(m, x, op.source, imm, root);
    var got := ReadOperand(m, x, op.source, imm).value;
    LiftCore(got.exec, root);
    CoreAfter(x, got.exec, Indirect(op.source), 0);
    EndsAs(x, op, r, Indirect(op.source), 0);
  }

  lemma AluFacts(m: Authority, x: Exec, op: Isa.Operation, imm: seq<Octet>, root: Anchor)
    requires ExecuteAlu(m, x, op, imm).Ok?
    ensures ExecutesAs(x, op, ExecuteAlu(m, x, op, imm).value)
    ensures ExecuteAlu(Lookup, Lift(x, root), op, imm) == Ok(LiftGot(ExecuteAlu(m, x, op, imm).value, root))
  {
    if op.Alu8? {
      hide *;
      Alu8Facts(m, x, op, imm, root);
    } else {
      hide Data, GrowsBy, Modify, Lift, Isa.DataPattern, DeclaredLoads, DeclaredStores, ExecutesAs, Indirect;
      var r := ExecuteAlu(m, x, op, imm).value;
      ModifyDeclared(op.target, r.value);
      ModifyFacts(m, x, op.target, imm, op.Increment8?, root);
      EndsAs(x, op, r, Indirect(op.target), Indirect(op.target));
    }
  }

  lemma RotateFacts(m: Authority, x: Exec, op: Isa.Operation, imm: seq<Octet>, root: Anchor)
    requires ExecuteRotate(m, x, op, imm).Ok?
    ensures ExecutesAs(x, op, ExecuteRotate(m, x, op, imm).value)
    ensures ExecuteRotate(Lookup, Lift(x, root), op, imm) == Ok(LiftGot(ExecuteRotate(m, x, op, imm).value, root))
  {
    hide Data, GrowsBy, WriteOperand, ReadOperand, Lift, WithCore, SetReg, Isa.DataPattern, DeclaredLoads,
         DeclaredStores, ExecutesAs, Rotate;
    var r := ExecuteRotate(m, x, op, imm).value;
    if op.RotateAccumulator? {
      LiftCore(x, root);
      CoreUpdates(x);
      SilentEnds(x, op, r);
    } else {
      var target := op.target;
      ReadOperandFacts(m, x, target, imm, root);
      var got := ReadOperand(m, x, target, imm).value;
      LiftCore(got.exec, root);
      var carry := got.exec.vm.core.flags.carry;
      RotateIsNotTest(op.cb, got.value, carry);
      var b := Rotate(op.cb, got.value, carry, true).value;
      WriteOperandFacts(m, got.exec, target, b.value, root);
      var y := WriteOperand(m, got.exec, target, b.value).value;
      LiftCore(y, root);
      DataTwice(x, got.exec, y, Indirect(target), 0, 0, Indirect(target));
      CoreAfter(x, y, Indirect(target), Indirect(target));
      CbDeclared(op.cb, target, r.value);
      EndsAs(x, op, r, Indirect(target), Indirect(target));
    }
  }

  lemma RotateIsNotTest(cb: Isa.CbOp, v: Octet, carry: bool)
    ensures Rotate(cb, v, carry, true).Some? ==> !cb.TestBit?
  {
  }

  lemma BitFacts(m: Authority, x: Exec, op: Isa.Operation, imm: seq<Octet>, root: Anchor)
    requires ExecuteBit(m, x, op, imm).Ok?
    ensures ExecutesAs(x, op, ExecuteBit(m, x, op, imm).value)
    ensures ExecuteBit(Lookup, Lift(x, root), op, imm) == Ok(LiftGot(ExecuteBit(m, x, op, imm).value, root))
  {
    hide Data, GrowsBy, WriteOperand, ReadOperand, BitOn, WithBit, Lift, WithCore, Isa.DataPattern, DeclaredLoads,
         DeclaredStores, ExecutesAs, Indirect;
    var cb, target := op.cb, op.target;
    ReadOperandFacts(m, x, target, imm, root);
    var got := ReadOperand(m, x, target, imm).value;
    LiftCore(got.exec, root);
    var r := ExecuteBit(m, x, op, imm).value;
    CbDeclared(cb, target, r.value);
    if cb.TestBit? {
      CoreAfter(x, got.exec, Indirect(target), 0);
      EndsAs(x, op, r, Indirect(target), 0);
    } else {
      WriteOperandFacts(m, got.exec, target, WithBit(got.value, cb.bit, cb.SetBit?), root);
      DataTwice(x, got.exec, r.exec, Indirect(target), 0, 0, Indirect(target));
      EndsAs(x, op, r, Indirect(target), Indirect(target));
    }
  }

  lemma CallReturnFacts(m: Authority, x: Exec, op: Isa.Operation, imm: seq<Octet>, root: Anchor)
    requires ExecuteCallReturn(m, x, op, imm).Ok?
    ensures ExecutesAs(x, op, ExecuteCallReturn(m, x, op, imm).value)
    ensures ExecuteCallReturn(Lookup, Lift(x, root), op, imm)
            == Ok(LiftGot(ExecuteCallReturn(m, x, op, imm).value, root))
  {
    hide Data, GrowsBy, PushWord, PopWord;
    var r := ExecuteCallReturn(m, x, op, imm).value;
    var pushes := op.Restart? || (op.Call? && Holds(x.vm.core, op.condition));
    var pops := op.ReturnFromInterrupt? || (op.Return? && Holds(x.vm.core, op.condition));
    if pushes {
      PushFacts(m, x, x.vm.core.pc, root);
      CoreOnly(x, PushWord(m, x, x.vm.core.pc).value, r.exec.vm.core, 0, 2);
    } else if pops {
      PopFacts(m, x, root);
      CoreOnly(x, PopWord(m, x).value.exec, r.exec.vm.core, 2, 0);
    } else {
      GrowsNothing(x, r.exec);
    }
  }

  lemma StackFacts(m: Authority, x: Exec, op: Isa.Operation, root: Anchor)
    requires ExecuteStack(m, x, op).Ok?
    ensures ExecutesAs(x, op, ExecuteStack(m, x, op).value)
    ensures ExecuteStack(Lookup, Lift(x, root), op) == Ok(LiftGot(ExecuteStack(m, x, op).value, root))
  {
    hide Data, GrowsBy, PushWord, PopWord, StackValue, SetStackPair;
    match op
    case Push(pair) => PushFacts(m, x, StackValue(x.vm.core, pair), root);
    case Pop(pair) =>
      PopFacts(m, x, root);
      CoreOnly(x, PopWord(m, x).value.exec, ExecuteStack(m, x, op).value.exec.vm.core, 2, 0);
  }

  /** Every operation but a copy of (HL) onto itself makes exactly its declared data accesses. */
  lemma ExecuteFacts(m: Authority, x: Exec, op: Isa.Operation, imm: seq<Octet>, root: Anchor)
    requires Execute(m, x, op, imm).Ok? && op != Isa.Load8(Isa.AtHL, Isa.AtHL)
    ensures ExecutesAs(x, op, Execute(m, x, op, imm).value)
    ensures Execute(Lookup, Lift(x, root), op, imm) == Ok(LiftGot(Execute(m, x, op, imm).value, root))
  {
    hide ExecutesAs, ExecuteControl, ExecuteLoad, ExecuteAlu, ExecuteAlu16, ExecuteRotate, ExecuteBit, ExecuteJump,
         ExecuteCallReturn, ExecuteStack, ExecuteInterrupt, ExecuteLowPower, Isa.ClassOf;
    match Isa.ClassOf(op)
    case Control => ControlFacts(x, op, root);
    case Interrupts => InterruptFacts(x, op, root);
    case LowPower => LowPowerFacts(x, op, imm, root);
    case Load => LoadFacts(m, x, op, imm, root);
    case Alu => AluFacts(m, x, op, imm, root);
    case Alu16 => Alu16Facts(x, op, imm, root);
    case RotateShift => RotateFacts(m, x, op, imm, root);
    case Bit => BitFacts(m, x, op, imm, root);
    case Jumps => JumpFacts(x, op, imm, root);
    case CallReturn => CallReturnFacts(m, x, op, imm, root);
    case Stack => StackFacts(m, x, op, root);
    case _ =>
  }

  // ----- fetching -----

  lemma CoreKind(x: Exec, y: Exec, k: Kind)
    requires GrowsBy(x, y, k)
    ensures forall c: Core :: c.mCycles == y.vm.core.mCycles ==> GrowsBy(x, WithCore(y, c), k)
  {
  }

  lemma AdvanceFacts(m: Authority, x: Exec, role: Role, root: Anchor)
    requires FetchAndAdvance(m, x, role).Ok? && role != DataRole
    ensures GrowsBy(x, FetchAndAdvance(m, x, role).value.exec, RoleKind(role))
    ensures FetchAndAdvance(Lookup, Lift(x, root), role) == Ok(LiftGot(FetchAndAdvance(m, x, role).value, root))
  {
    hide GrowsBy, FetchInstruction, Lift, WithCore, Wrap16;
    LiftCore(x, root);
    FetchInstructionFacts(m, x, x.vm.core.pc, role, root);
    var got := FetchInstruction(m, x, x.vm.core.pc, role).value;
    LiftCore(got.exec, root);
    CoreKind(x, got.exec, RoleKind(role));
  }

  lemma FirstFacts(m: Authority, x: Exec, root: Anchor)
    requires FetchFirst(m, x).Ok?
    ensures GrowsBy(x, FetchFirst(m, x).value.exec, OpcodeKind)
    ensures FetchFirst(Lookup, Lift(x, root)) == Ok(LiftGot(FetchFirst(m, x).value, root))
  {
    hide GrowsBy, FetchInstruction, FetchAndAdvance, Lift, WithCore;
    LiftCore(x, root);
    if x.vm.core.run != HaltBug {
      AdvanceFacts(m, x, OpcodeRole, root);
    } else {
      FetchInstructionFacts(m, x, x.vm.core.pc, OpcodeRole, root);
      var got := FetchInstruction(m, x, x.vm.core.pc, OpcodeRole).value;
      LiftCore(got.exec, root);
      CoreKind(x, got.exec, OpcodeKind);
    }
  }

  /** Instruction bytes only. */
  ghost predicate Bytewise(x: Exec, y: Exec, opcodes: int, immediates: int) { Grows(x, y, opcodes, immediates, 0, 0) }

  lemma OpcodeThen(x: Exec, y: Exec, z: Exec, o: int, i: int)
    requires GrowsBy(x, y, OpcodeKind) && Bytewise(y, z, o, i)
    ensures Bytewise(x, z, 1 + o, i)
  {
    hide Grows;
    GrowsTwice(x, y, z, 1, 0, 0, 0, o, i, 0, 0);
  }

  lemma ImmediateThen(x: Exec, y: Exec, z: Exec, o: int, i: int)
    requires GrowsBy(x, y, ImmediateKind) && Bytewise(y, z, o, i)
    ensures Bytewise(x, z, o, 1 + i)
  {
    hide Grows;
    GrowsTwice(x, y, z, 0, 1, 0, 0, o, i, 0, 0);
  }

  lemma OpcodeAlone(x: Exec, y: Exec)
    requires GrowsBy(x, y, OpcodeKind)
    ensures Bytewise(x, y, 1, 0)
  {
    hide Grows;
  }

  lemma BytewiseNothing(x: Exec)
    ensures Bytewise(x, x, 0, 0)
  {
    GrowsNothing(x, x);
  }

  lemma {:induction false} ImmediateFacts(m: Authority, x: Exec, n: nat, root: Anchor)
    requires FetchImmediates(m, x, n).Ok?
    ensures Bytewise(x, FetchImmediates(m, x, n).value.exec, 0, n)
    ensures FetchImmediates(Lookup, Lift(x, root), n) == Ok(LiftGot(FetchImmediates(m, x, n).value, root))
    decreases n
  {
    hide GrowsBy, Bytewise, FetchAndAdvance, Lift;
    if n == 0 {
      BytewiseNothing(x);
    } else {
      AdvanceFacts(m, x, ImmediateRole, root);
      var first := FetchAndAdvance(m, x, ImmediateRole).value;
      ImmediateFacts(m, first.exec, n - 1, root);
      ImmediateThen(x, first.exec, FetchImmediates(m, x, n).value.exec, 0, n - 1);
    }
  }

  lemma FetchPattern(d: Isa.Decoded)
    ensures d.prefixed ==> Isa.BusPattern(d).opcodes == 2 && Isa.BusPattern(d).immediates == 0
    ensures !d.prefixed ==>
            Isa.BusPattern(d).opcodes == 1 && Isa.BusPattern(d).immediates == if d.length == 0 then 0 else d.length - 1
  {
    hide Isa.DataPattern;
  }

  lemma CbPrefixed(b: int)
    ensures Isa.DecodeCb(b).prefixed
  {
  }

  lemma PrimaryPlain(b: int)
    ensures Isa.DecodePrimary(b).Some? ==> !Isa.DecodePrimary(b).value.prefixed
  {
    hide Isa.OperandOf, Isa.AluOf, Isa.ConditionOf, Isa.PairOf, Isa.StackPairOf, Isa.MiscOf, Isa.IndirectOf;
  }

  /** Opcode and immediate bytes as the table declares them. */
  ghost predicate FetchesAs(x: Exec, r: Got<Fetched>) {
    Bytewise(x, r.exec, Isa.BusPattern(r.value.decoded).opcodes, Isa.BusPattern(r.value.decoded).immediates)
  }

  lemma PrefixedFacts(m: Authority, x: Exec, root: Anchor)
    requires FetchWhole(m, x).Ok? && FetchFirst(m, x).value.value == 0xcb
    ensures FetchesAs(x, FetchWhole(m, x).value)
    ensures FetchWhole(Lookup, Lift(x, root)) == Ok(LiftGot(FetchWhole(m, x).value, root))
  {
    hide GrowsBy, Bytewise, FetchAndAdvance, FetchFirst, FetchImmediates, Lift, Isa.DecodeCb, Isa.DecodePrimary,
         Isa.BusPattern;
    FirstFacts(m, x, root);
    var opcode, r := FetchFirst(m, x).value, FetchWhole(m, x).value;
    AdvanceFacts(m, opcode.exec, OpcodeRole, root);
    CbPrefixed(FetchAndAdvance(m, opcode.exec, OpcodeRole).value.value);
    FetchPattern(r.value.decoded);
    OpcodeAlone(opcode.exec, r.exec);
    OpcodeThen(x, opcode.exec, r.exec, 1, 0);
  }

  lemma PrimaryFacts(m: Authority, x: Exec, root: Anchor)
    requires FetchWhole(m, x).Ok? && FetchFirst(m, x).value.value != 0xcb
    ensures FetchesAs(x, FetchWhole(m, x).value)
    ensures FetchWhole(Lookup, Lift(x, root)) == Ok(LiftGot(FetchWhole(m, x).value, root))
  {
    hide GrowsBy, Bytewise, FetchAndAdvance, FetchFirst, FetchImmediates, Lift, Isa.DecodeCb, Isa.DecodePrimary,
         Isa.BusPattern;
    FirstFacts(m, x, root);
    var opcode, r := FetchFirst(m, x).value, FetchWhole(m, x).value;
    var d := Isa.DecodePrimary(opcode.value).value;
    FetchPattern(d);
    PrimaryPlain(opcode.value);
    var n := if d.length == 0 then 0 else d.length - 1;
    ImmediateFacts(m, opcode.exec, n, root);
    OpcodeThen(x, opcode.exec, r.exec, 0, n);
  }

  lemma WholeFacts(m: Authority, x: Exec, root: Anchor)
    requires FetchWhole(m, x).Ok?
    ensures FetchesAs(x, FetchWhole(m, x).value)
    ensures FetchWhole(Lookup, Lift(x, root)) == Ok(LiftGot(FetchWhole(m, x).value, root))
  {
    hide FetchesAs, FetchFirst, FetchImmediates, FetchAndAdvance, Lift, Isa.DecodeCb, Isa.DecodePrimary;
    if FetchFirst(m, x).value.value == 0xcb { PrefixedFacts(m, x, root); } else { PrimaryFacts(m, x, root); }
  }

  // ----- decoded bytes -----

  /** Whatever is fetched decodes to a row of the table. */
  lemma WholeDecodes(m: Authority, x: Exec)
    requires FetchWhole(m, x).Ok?
    ensures Isa.Decodes(FetchWhole(m, x).value.value.decoded)
  {
    hide Isa.DecodeCb, Isa.DecodePrimary, FetchInstruction, FetchImmediates, Wrap16;
    var opcode := FetchFirst(m, x).value;
    if opcode.value == 0xcb {
      var second := FetchAndAdvance(m, opcode.exec, OpcodeRole).value.value;
      assert Isa.DecodeCb(second) == FetchWhole(m, x).value.value.decoded;
    }
  }

  // ----- whole steps -----

  lemma TimingFacts(x: Exec, n: nat, active: bool, root: Anchor)
    requires AddTiming(x, n, active).Ok?
    ensures
      var y := AddTiming(x, n, active).value;
      y.events == x.events && y.witnesses == x.witnesses && y.vm.core.mCycles == x.vm.core.mCycles + n
    ensures AddTiming(Lift(x, root), n, active) == Ok(Lift(AddTiming(x, n, active).value, root))
  {
    hide Device.AdvanceM;
  }

  lemma AfterFacts(start: Vm, x: Exec, op: Isa.Operation, root: Anchor)
    ensures AfterExecute(start, x, op).events == x.events && AfterExecute(start, x, op).witnesses == x.witnesses
    ensures AfterExecute(start, x, op).vm.core.mCycles == x.vm.core.mCycles
    ensures AfterExecute(Lift(Exec(start, [], []), root).vm, Lift(x, root), op)
            == Lift(AfterExecute(start, x, op), root)
  {
  }

  lemma HaltBugFacts(start: Vm, x: Exec, op: Isa.Operation, root: Anchor)
    ensures HaltBugAfter(start, x, op).events == x.events && HaltBugAfter(start, x, op).witnesses == x.witnesses
    ensures HaltBugAfter(start, x, op).vm.core.mCycles == x.vm.core.mCycles
    ensures HaltBugAfter(Lift(Exec(start, [], []), root).vm, Lift(x, root), op)
            == Lift(HaltBugAfter(start, x, op), root)
  {
    hide PendingInterrupt;
  }

  function LiftDone(d: Done, root: Anchor): Done { d.(exec := Lift(d.exec, root)) }

  lemma LiftStart(x: Exec, root: Anchor)
    ensures Lift(x, root).vm == Lift(Exec(x.vm, [], []), root).vm
    ensures Lift(x, root).vm.device == x.vm.device && Lift(x, root).vm.core == x.vm.core
  {
  }

  /** The trace of a whole instruction: exactly its declared accesses, then its declared M-cycles. */
  ghost predicate TracedAs(x: Exec, y: Exec, d: Isa.Decoded, branch: bool) {
    var p := Isa.BusPattern(d);
    && Traced(x, y, p.opcodes, p.immediates, p.Loads(branch), p.Stores(branch), 0)
    && y.vm.core.mCycles == x.vm.core.mCycles + d.MCycles(branch)
  }

  lemma PatternParts(d: Isa.Decoded, branch: bool)
    ensures Isa.BusPattern(d).Loads(branch) == DeclaredLoads(d.op, branch)
    ensures Isa.BusPattern(d).Stores(branch) == DeclaredStores(d.op, branch)
  {
    hide Isa.DataPattern;
  }

  /** Fetch, data accesses and timing in a row. */
  lemma InstructionTrace(x: Exec, f: Got<Fetched>, r: Got<bool>, z: Exec)
    requires FetchesAs(x, f) && ExecutesAs(f.exec, f.value.decoded.op, r)
    requires z.events == r.exec.events && z.witnesses == r.exec.witnesses
    requires z.vm.core.mCycles == r.exec.vm.core.mCycles + f.value.decoded.MCycles(r.value)
    ensures TracedAs(x, z, f.value.decoded, r.value)
  {
    hide Isa.BusPattern, DeclaredLoads, DeclaredStores;
    PatternParts(f.value.decoded, r.value);
  }

  /** Every accepted instruction emits its declared accesses, in both modes alike. */
  lemma InstructionFacts(m: Authority, x: Exec, root: Anchor)
    requires InstructionStep(m, x).Ok?
    ensures
      var done := InstructionStep(m, x).value;
      Isa.Decodes(done.decoded) && TracedAs(x, done.exec, done.decoded, done.branch)
    ensures InstructionStep(Lookup, Lift(x, root)) == Ok(LiftDone(InstructionStep(m, x).value, root))
  {
    hide FetchesAs, ExecutesAs, TracedAs, FetchWhole, Execute, AddTiming, AfterExecute, HaltBugAfter, Lift, Isa.Decodes;
    LiftStart(x, root);
    WholeFacts(m, x, root);
    WholeDecodes(m, x);
    var fetched := FetchWhole(m, x).value;
    var d := fetched.value.decoded;
    NoSelfCopy(d);
    ExecuteFacts(m, fetched.exec, d.op, fetched.value.imm, root);
    var got := Execute(m, fetched.exec, d.op, fetched.value.imm).value;
    AfterFacts(x.vm, got.exec, d.op, root);
    var after := AfterExecute(x.vm, got.exec, d.op);
    TimingFacts(after, d.MCycles(got.value), x.vm.device.dma.active, root);
    var timed := AddTiming(after, d.MCycles(got.value), x.vm.device.dma.active).value;
    HaltBugFacts(x.vm, timed, d.op, root);
    InstructionTrace(x, fetched, got, HaltBugAfter(x.vm, timed, d.op));
  }

  lemma NoSelfCopy(d: Isa.Decoded)
    requires Isa.Decodes(d)
    ensures d.op != Isa.Load8(Isa.AtHL, Isa.AtHL)
  {
    hide Isa.Decodes;
    Isa.TableFits(d, false);
  }

  // ----- machine events -----

  /** What every kind of step keeps: witness accounting, and the block bounds. */
  ghost predicate Bounded(x: Exec, y: Exec, cycles: int) {
    && Carried(y.events) + y.witnesses == Carried(x.events) + x.witnesses
    && |x.events| <= |y.events| <= |x.events| + 5
    && y.vm.core.mCycles == x.vm.core.mCycles + cycles
  }

  lemma DataBounded(x: Exec, s: Exec, y: Exec, z: Exec, loads: int, stores: int, cycles: int)
    requires s.events == x.events && s.witnesses == x.witnesses && s.vm.core.mCycles == x.vm.core.mCycles
    requires Data(s, y, loads, stores) && 0 <= loads + stores <= 5
    requires z.events == y.events && z.witnesses == y.witnesses && z.vm.core.mCycles == y.vm.core.mCycles + cycles
    ensures Bounded(x, z, cycles)
  {
    hide Count;
  }

  lemma DispatchFacts(m: Authority, x: Exec, i: Interrupt, root: Anchor)
    requires DispatchInterrupt(m, x, i).Ok?
    ensures Bounded(x, DispatchInterrupt(m, x, i).value, 5)
    ensures DispatchInterrupt(Lookup, Lift(x, root), i) == Ok(Lift(DispatchInterrupt(m, x, i).value, root))
  {
    hide Data, Bounded, PushWord, AddTiming, Mmio.AcknowledgeLine;
    var c := x.vm.core;
    var device := x.vm.device.(request := Mmio.AcknowledgeLine(x.vm.device.request, i));
    var started := x.(vm := x.vm.(core := c.(run := Running, ime := Disabled), device := device));
    PushFacts(m, started, c.pc, root);
    var pushed := PushWord(m, started, c.pc).value;
    var aimed := WithCore(pushed, pushed.vm.core.(pc := i.Vector()));
    TimingFacts(aimed, 5, pushed.vm.device.dma.active, root);
    DataBounded(x, started, pushed, DispatchInterrupt(m, x, i).value, 0, 2, 5);
  }

  lemma DmaSourceFacts(m: Authority, x: Exec, source: int, root: Anchor)
    requires DmaSource(m, x, source).Ok?
    ensures TracedBy(x, DmaSource(m, x, source).value.exec, DmaKind)
    ensures DmaSource(m, x, source).value.exec.vm == x.vm
    ensures DmaSource(Lookup, Lift(x, root), source) == Ok(LiftGot(DmaSource(m, x, source).value, root))
  {
    hide TracedBy, TakeRom, TakeCell, OwnerOf, Mapper.External, ExternalArea;
    if OwnerOf(source) == RomArea {
      var p := x.vm.mapper.MapRom(source);
      TakeRomFacts(m, x, source, p, root);
      var got := TakeRom(m, x, source, p).value;
      EmitCopied(x, got.exec, DmaRomRead(got.value));
    } else {
      var p := DmaPhysical(x, source).value;
      TakeCellFacts(m, x, source, p, root);
      var got := TakeCell(m, x, source, p).value;
      EmitCopied(x, got.exec, DmaMemoryRead(got.value));
    }
  }

  lemma TwoBounded(x: Exec, y: Exec, z: Exec, w: Exec, k: Kind, l: Kind)
    requires TracedBy(x, y, k) && TracedBy(y, z, l)
    requires w.events == z.events && w.witnesses == z.witnesses && w.vm.core.mCycles == x.vm.core.mCycles
    ensures Bounded(x, w, 0)
  {
    hide Count;
  }

  lemma CopyFacts(m: Authority, x: Exec, root: Anchor)
    requires CopyDmaByte(m, x).Ok?
    ensures Bounded(x, CopyDmaByte(m, x).value, 0)
    ensures CopyDmaByte(Lookup, Lift(x, root)) == Ok(Lift(CopyDmaByte(m, x).value, root))
  {
    hide TracedBy, Bounded, DmaSource, TakeUpdate, Dma.Complete;
    var d := x.vm.device.dma;
    var source, destination := d.SourceAddress(), d.DestinationAddress();
    DmaSourceFacts(m, x, source, root);
    var got := DmaSource(m, x, source).value;
    TakeUpdateFacts(m, got.exec, destination, destination, got.value, root);
    var written := TakeUpdate(m, got.exec, destination, destination, got.value).value;
    EmitCopied(got.exec, written.exec, DmaWrite(written.value));
    TwoBounded(x, got.exec, Emit(written.exec, DmaWrite(written.value)), CopyDmaByte(m, x).value, DmaKind, DmaKind);
  }

  lemma QuietBounded(x: Exec, y: Exec, cycles: int)
    requires y.events == x.events && y.witnesses == x.witnesses && y.vm.core.mCycles == x.vm.core.mCycles + cycles
    ensures Bounded(x, y, cycles)
  {
  }

  /** M-cycles of a machine event. */
  function EventCycles(v: Vm, e: MachineEvent): int {
    match e case Dispatch(_) => 5 case Wake => 0 case Skip(n) => n case Idle => HaltIdle(v.device)
  }

  lemma EventFacts(m: Authority, x: Exec, e: MachineEvent, root: Anchor)
    requires EventStep(m, x, e).Ok?
    ensures Bounded(x, EventStep(m, x, e).value, EventCycles(x.vm, e))
    ensures EventStep(Lookup, Lift(x, root), e) == Ok(Lift(EventStep(m, x, e).value, root))
  {
    hide Bounded, DispatchInterrupt, AddTiming, QuietLong, HaltIdle;
    match e
    case Dispatch(i) => DispatchFacts(m, x, i, root);
    case Wake => QuietBounded(x, EventStep(m, x, e).value, 0);
    case Skip(n) => QuietBounded(x, EventStep(m, x, e).value, n);
    case Idle =>
      TimingFacts(x, HaltIdle(x.vm.device), x.vm.device.dma.active, root);
      QuietBounded(x, EventStep(m, x, e).value, HaltIdle(x.vm.device));
  }

  lemma InstructionBounded(x: Exec, y: Exec, d: Isa.Decoded, branch: bool)
    requires TracedAs(x, y, d, branch) && Isa.Decodes(d)
    ensures Bounded(x, y, d.MCycles(branch)) && 1 <= d.MCycles(branch) <= 6
  {
    Isa.TableFits(d, branch);
    PatternNonnegative(d, branch);
    hide Isa.DataPattern, Isa.Decodes, Count;
  }

  lemma PatternNonnegative(d: Isa.Decoded, branch: bool)
    ensures Isa.BusPattern(d).Total(branch) >= 0
  {
  }

  /** Long skips are the only steps over six M-cycles. */
  predicate IsSkip(v: Vm) {
    v.device.dma.owed == 0 && Classify(v).Ok? && Classify(v).value.Some? && Classify(v).value.value.Skip?
  }

  ghost predicate StepBounded(x: Exec, y: Exec) {
    exists cycles: int :: Bounded(x, y, cycles) && (IsSkip(x.vm) || 0 <= cycles <= 6)
  }

  lemma RunFacts(m: Authority, x: Exec, root: Anchor)
    requires RunStep(m, x).Ok?
    ensures StepBounded(x, RunStep(m, x).value.exec)
    ensures RunStep(Lookup, Lift(x, root)) == Ok(RunStep(m, x).value.(exec := Lift(RunStep(m, x).value.exec, root)))
  {
    hide Bounded, CopyDmaByte, EventStep, InstructionStep, PendingInterrupt, LongSkip, Isa.Decodes, TracedAs, Lift,
         HaltIdle;
    LiftStart(x, root);
    if x.vm.device.dma.owed != 0 {
      CopyFacts(m, x, root);
    } else {
      match Classify(x.vm).value
      case Some(e) => EventFacts(m, x, e, root);
      case None =>
        InstructionFacts(m, x, root);
        var done := InstructionStep(m, x).value;
        InstructionBounded(x, done.exec, done.decoded, done.branch);
    }
  }

  // ----- main results -----

  /** Every accepted step uses exactly the witnesses its events carry, in order, and fits five events and six M-cycles
      unless it is a long HALT skip. */
  lemma AcceptedStep(auth: Authority, v: Vm, witnesses: seq<Witness>)
    requires Step(auth, v, witnesses).Ok?
    ensures
      var e := Step(auth, v, witnesses).value;
      && witnesses == Carried(e.events)
      && |e.events| <= 5
      && (IsSkip(v) || 0 <= e.vm.core.mCycles - v.core.mCycles <= 6)
  {
    hide RunStep, IsSkip;
    var x := Exec(v, witnesses, []);
    RunFacts(auth, x, Anchor(v.root, v.busTranscript, v.isaTranscript));
    assert [] + witnesses == witnesses;
    var y := RunStep(auth, x).value.exec;
    assert Carried(y.events) + [] == Carried(y.events);
  }

  /** An accepted instruction emits exactly the opcode, immediate, read and write events its table row declares. */
  lemma AcceptedInstruction(auth: Authority, v: Vm, witnesses: seq<Witness>)
    requires Step(auth, v, witnesses).Ok? && v.device.dma.owed == 0 && Classify(v) == Ok(None)
    ensures InstructionStep(auth, Exec(v, witnesses, [])).Ok?
    ensures
      var done, e := InstructionStep(auth, Exec(v, witnesses, [])).value, Step(auth, v, witnesses).value;
      var p := Isa.BusPattern(done.decoded);
      && Isa.Decodes(done.decoded) && |e.events| == p.Total(done.branch)
      && Count(OpcodeKind, e.events) == p.opcodes && Count(ImmediateKind, e.events) == p.immediates
      && Count(LoadKind, e.events) == p.Loads(done.branch) && Count(StoreKind, e.events) == p.Stores(done.branch)
      && e.vm.core.mCycles == v.core.mCycles + done.decoded.MCycles(done.branch)
  {
    hide InstructionStep, Classify, Isa.Decodes, Isa.BusPattern, Carried;
    var x := Exec(v, witnesses, []);
    InstructionFacts(auth, x, Anchor(v.root, v.busTranscript, v.isaTranscript));
  }

  /** Lookup mode refines Merkle mode: same witnesses, same events, same state save the root and both transcripts. */
  lemma LookupRefinesMerkle(m: Authority, v: Vm, witnesses: seq<Witness>)
    requires m.Merkle? && Step(m, v, witnesses).Ok?
    ensures
      var e := Step(m, v, witnesses).value;
      Step(Lookup, v, witnesses) == Ok(Effects(
        e.vm.(root := v.root, busTranscript := v.busTranscript, isaTranscript := v.isaTranscript), e.events))
  {
    hide RunStep, StepBounded;
    var x, root := Exec(v, witnesses, []), Anchor(v.root, v.busTranscript, v.isaTranscript);
    assert Lift(x, root) == x;
    RunFacts(m, x, root);
  }
}
