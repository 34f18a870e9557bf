/** Interrupt enabling, HALT and the program counter over whole instructions. */
module ModeLaws {

  import opened Wrappers
  import opened Devices
  import opened Bus
  import opened Execution
  import opened StepFacts
  import opened MemoryLaws
  import opened Decimal
  import Isa
  import Mmio
  import Modulus
  import Steps

  // ----- what an operation does to IME and the run state -----

  /** IME, run state and program counter. */
  predicate SameMode(c: Core, n: Core) { n.ime == c.ime && n.run == c.run && n.pc == c.pc }

  /** All three kept, and no branch taken. */
  predicate Straight(c: Core, r: Got<bool>) { SameMode(c, r.exec.vm.core) && !r.value }

  lemma ReadKeepsCore(auth: Authority, x: Exec, a: Address)
    requires ReadData(auth, x, a).Ok?
    ensures ReadData(auth, x, a).value.exec.vm.core == x.vm.core
  {
    hide Blocked, Mapper.External, Mapper.MapRom, RegisterByte, Mmio.Implemented, Mmio.SampleJoypad, Mmio.VisibleJoypad;
  }

  lemma AccessesKeepCore(auth: Authority)
    ensures forall x, a :: ReadData(auth, x, a).Ok? ==> ReadData(auth, x, a).value.exec.vm.core == x.vm.core
    ensures forall x, a, v :: WriteData(auth, x, a, v).Ok? ==> WriteData(auth, x, a, v).value.vm.core == x.vm.core
  {
    hide ReadData, WriteData;
    forall x, a | ReadData(auth, x, a).Ok? ensures ReadData(auth, x, a).value.exec.vm.core == x.vm.core {
      ReadKeepsCore(auth, x, a);
    }
    forall x, a, v | WriteData(auth, x, a, v).Ok? ensures WriteData(auth, x, a, v).value.vm.core == x.vm.core {
      WriteMirrors(auth, x, a, v);
    }
  }

  lemma RegistersKeepMode(c: Core)
    ensures forall r, v :: SameMode(c, SetReg(c, r, v))
    ensures forall p, v :: SameMode(c, SetPair(c, p, v))
    ensures forall s, v :: SameMode(c, SetStackPair(c, s, v))
  {
  }

  lemma StackKeepsMode(auth: Authority, x: Exec, v: Address)
    ensures PushWord(auth, x, v).Ok? ==> SameMode(x.vm.core, PushWord(auth, x, v).value.vm.core)
    ensures PopWord(auth, x).Ok? ==> SameMode(x.vm.core, PopWord(auth, x).value.exec.vm.core)
  {
    hide ReadData, WriteData;
    AccessesKeepCore(auth);
  }

  lemma OperandsKeepMode(auth: Authority)
    ensures forall x, o, imm :: ReadOperand(auth, x, o, imm).Ok? ==>
              SameMode(x.vm.core, ReadOperand(auth, x, o, imm).value.exec.vm.core)
    ensures forall x, o, v :: WriteOperand(auth, x, o, v).Ok? ==>
            SameMode(x.vm.core, WriteOperand(auth, x, o, v).value.vm.core)
    ensures forall x, a, d :: TransferA(auth, x, a, d).Ok? ==>
            SameMode(x.vm.core, TransferA(auth, x, a, d).value.vm.core)
  {
    hide ReadData, WriteData;
    AccessesKeepCore(auth);
  }

  lemma LoadKeepsMode(auth: Authority, x: Exec, op: Isa.Operation, imm: seq<Octet>)
    requires ExecuteLoad(auth, x, op, imm).Ok?
    ensures Straight(x.vm.core, ExecuteLoad(auth, x, op, imm).value)
  {
    hide ReadOperand, WriteOperand, TransferA, WriteData;
    OperandsKeepMode(auth);
    AccessesKeepCore(auth);
  }

  lemma AluKeepsMode(auth: Authority, x: Exec, op: Isa.Operation, imm: seq<Octet>)
    requires ExecuteAlu(auth, x, op, imm).Ok?
    ensures Straight(x.vm.core, ExecuteAlu(auth, x, op, imm).value)
  {
    hide ReadOperand, WriteOperand, ApplyAlu, Increment, Decrement;
    OperandsKeepMode(auth);
  }

  lemma RotateKeepsMode(auth: Authority, x: Exec, op: Isa.Operation, imm: seq<Octet>)
    requires ExecuteRotate(auth, x, op, imm).Ok?
    ensures Straight(x.vm.core, ExecuteRotate(auth, x, op, imm).value)
  {
    hide ReadOperand, WriteOperand, Rotate;
    OperandsKeepMode(auth);
  }

  lemma BitKeepsMode(auth: Authority, x: Exec, op: Isa.Operation, imm: seq<Octet>)
    requires ExecuteBit(auth, x, op, imm).Ok?
    ensures Straight(x.vm.core, ExecuteBit(auth, x, op, imm).value)
  {
    hide ReadOperand, WriteOperand, BitOn, WithBit;
    OperandsKeepMode(auth);
  }

  /** A branch leaves the program counter alone unless it is taken. */
  predicate Branches(c: Core, r: Got<bool>, ime: Ime) {
    r.exec.vm.core.run == c.run && r.exec.vm.core.ime == ime && (!r.value ==> r.exec.vm.core.pc == c.pc)
  }

  lemma CallsKeepMode(auth: Authority, x: Exec, op: Isa.Operation, imm: seq<Octet>)
    requires ExecuteCallReturn(auth, x, op, imm).Ok?
    ensures Branches(x.vm.core, ExecuteCallReturn(auth, x, op, imm).value,
                     if op.ReturnFromInterrupt? then Enabled else x.vm.core.ime)
  {
    hide PushWord, PopWord, Holds;
    StackKeepsMode(auth, x, x.vm.core.pc);
  }

  lemma StacksKeepMode(auth: Authority, x: Exec, op: Isa.Operation)
    requires ExecuteStack(auth, x, op).Ok?
    ensures Straight(x.vm.core, ExecuteStack(auth, x, op).value)
  {
    hide PushWord, PopWord, StackValue, SetStackPair;
    if op.Push? {
      StackKeepsMode(auth, x, StackValue(x.vm.core, op.stack));
    } else {
      StackKeepsMode(auth, x, 0);
      RegistersKeepMode(PopWord(auth, x).value.exec.vm.core);
    }
  }

  lemma ControlKeepsMode(x: Exec, op: Isa.Operation)
    requires ExecuteControl(x, op).Ok?
    ensures Straight(x.vm.core, ExecuteControl(x, op).value)
  {
    hide DecimalAdjust;
  }

  lemma SumsKeepMode(x: Exec, op: Isa.Operation, imm: seq<Octet>)
    requires ExecuteAlu16(x, op, imm).Ok?
    ensures Straight(x.vm.core, ExecuteAlu16(x, op, imm).value)
  {
    hide AddPair, SpOffset, SetPair, Pair;
    RegistersKeepMode(x.vm.core);
  }

  lemma JumpsKeepMode(x: Exec, op: Isa.Operation, imm: seq<Octet>)
    requires ExecuteJump(x, op, imm).Ok?
    ensures Branches(x.vm.core, ExecuteJump(x, op, imm).value, x.vm.core.ime)
  {
    hide Signed, Holds, Pair;
  }

  /** IME after an operation: DI and EI decide it, RETI enables, every other operation leaves it. */
  function ImeAfter(op: Isa.Operation, ime: Ime): Ime {
    match op
    case DisableInterrupts => Disabled
    case EnableInterrupts => EnablePending
    case ReturnFromInterrupt => Enabled
    case _ => ime
  }

  function RunAfter(op: Isa.Operation, run: RunState): RunState {
    match op case Halt => Halted case Stop => Stopped case _ => run
  }

  lemma SwitchesMode(x: Exec, op: Isa.Operation, imm: seq<Octet>)
    ensures ExecuteInterrupt(x, op).Ok? ==>
              var r := ExecuteInterrupt(x, op).value;
              && r.exec.vm.core == x.vm.core.(ime := ImeAfter(op, x.vm.core.ime)) && !r.value
              && (op.DisableInterrupts? || op.EnableInterrupts?)
    ensures ExecuteLowPower(x, op, imm).Ok? ==>
              var r := ExecuteLowPower(x, op, imm).value;
              && r.exec.vm.core == x.vm.core.(run := RunAfter(op, x.vm.core.run)) && !r.value && (op.Halt? || op.Stop?)
  {
  }

  /** What an operation does to IME and the run state; only a taken branch moves the program counter. */
  lemma ModeAfter(auth: Authority, x: Exec, op: Isa.Operation, imm: seq<Octet>)
    requires Execute(auth, x, op, imm).Ok?
    ensures
      var r := Execute(auth, x, op, imm).value;
      var n := r.exec.vm.core;
      && n.ime == ImeAfter(op, x.vm.core.ime) && n.run == RunAfter(op, x.vm.core.run)
      && (!r.value ==> n.pc == x.vm.core.pc)
      && (r.value ==> Isa.ClassOf(op) == Isa.Jumps || Isa.ClassOf(op) == Isa.CallReturn)
  {
    hide ExecuteControl, ExecuteLoad, ExecuteAlu, ExecuteAlu16, ExecuteRotate, ExecuteBit, ExecuteJump,
         ExecuteCallReturn, ExecuteStack;
    match Isa.ClassOf(op)
    case Load => LoadKeepsMode(auth, x, op, imm);
    case Alu => AluKeepsMode(auth, x, op, imm);
    case RotateShift => RotateKeepsMode(auth, x, op, imm);
    case Bit => BitKeepsMode(auth, x, op, imm);
    case CallReturn => CallsKeepMode(auth, x, op, imm);
    case Stack => StacksKeepMode(auth, x, op);
    case Control => ControlKeepsMode(x, op);
    case Alu16 => SumsKeepMode(x, op, imm);
    case Jumps => JumpsKeepMode(x, op, imm);
    case _ => SwitchesMode(x, op, imm);
  }

  // ----- the program counter -----

  lemma FetchKeepsVm(auth: Authority, x: Exec, a: Address, role: Role)
    requires FetchInstruction(auth, x, a, role).Ok?
    ensures FetchInstruction(auth, x, a, role).value.exec.vm == x.vm
  {
    hide FetchAt, Truthful;
    FetchValue(auth, x, a, role);
  }

  lemma {:induction false} ImmediatesAdvance(auth: Authority, x: Exec, n: nat)
    requires FetchImmediates(auth, x, n).Ok?
    ensures FetchImmediates(auth, x, n).value.exec.vm == x.vm.(core := x.vm.core.(pc := Wrap16(x.vm.core.pc + n)))
    ensures |FetchImmediates(auth, x, n).value.value| == n
    decreases n
  {
    hide FetchInstruction;
    if n > 0 {
      FetchKeepsVm(auth, x, x.vm.core.pc, ImmediateRole);
      var first := FetchAndAdvance(auth, x, ImmediateRole).value;
      ImmediatesAdvance(auth, first.exec, n - 1);
      OneThenMore(x.vm.core.pc, n);
    }
  }

  lemma OneThenMore(pc: Address, n: int)
    ensures Wrap16(Wrap16(pc + 1) + n - 1) == Wrap16(pc + n)
  {
    var q := (pc + 1) / 65536;
    assert Wrap16(pc + 1) + n - 1 == pc + n - 65536 * q;
    SameWrap(pc + n, q);
  }

  lemma SameWrap(x: int, q: int)
    ensures Wrap16(x - 65536 * q) == Wrap16(x)
  {
    Modulus.DivisionUnique(x - 65536 * q, 65536, x / 65536 - q, x % 65536);
  }

  /** Fetching moves the program counter past the instruction, and one byte less after the HALT bug, whose first byte is
      thus fetched again; it changes nothing else but leaving that state. */
  lemma FetchAdvances(auth: Authority, x: Exec)
    requires FetchWhole(auth, x).Ok? && (x.vm.core.run == Running || x.vm.core.run == HaltBug)
    ensures
      var f := FetchWhole(auth, x).value;
      var length := if f.value.decoded.length == 0 then 1 else f.value.decoded.length;
      f.exec.vm == x.vm.(core := x.vm.core.(
        run := Running, pc := Wrap16(x.vm.core.pc + length - if x.vm.core.run == HaltBug then 1 else 0)))
  {
    hide FetchInstruction, FetchImmediates, Isa.DecodeCb, Isa.DecodePrimary;
    FetchKeepsVm(auth, x, x.vm.core.pc, OpcodeRole);
    var first := FetchFirst(auth, x).value;
    if first.value == 0xcb {
      FetchKeepsVm(auth, first.exec, first.exec.vm.core.pc, OpcodeRole);
      CbLength(FetchAndAdvance(auth, first.exec, OpcodeRole).value.value);
      OneThenMore(x.vm.core.pc, 2);
    } else {
      var d := Isa.DecodePrimary(first.value).value;
      var n := if d.length == 0 then 0 else d.length - 1;
      ImmediatesAdvance(auth, first.exec, n);
      OneThenMore(x.vm.core.pc, n + 1);
    }
  }

  lemma CbLength(byte: int)
    ensures Isa.DecodeCb(byte).length == 2
  {
    hide Isa.OperandOf, Isa.RotateOf;
  }

  // ----- whole instructions -----

  lemma TimedKeepsMode(x: Exec, n: nat, active: bool)
    requires AddTiming(x, n, active).Ok?
    ensures SameMode(x.vm.core, AddTiming(x, n, active).value.vm.core)
  {
    hide Device.AdvanceM;
  }

  /** IME over a whole instruction: EI only announces it, and the instruction after EI enables it unless it is DI. */
  lemma ImeOverInstruction(auth: Authority, x: Exec)
    requires InstructionStep(auth, x).Ok?
    ensures
      var r := InstructionStep(auth, x).value;
      r.exec.vm.core.ime ==
      if x.vm.core.ime == EnablePending && r.decoded.op != Isa.DisableInterrupts then Enabled
      else ImeAfter(r.decoded.op, x.vm.core.ime)
  {
    hide FetchWhole, Execute, AddTiming, PendingInterrupt;
    var f := FetchWhole(auth, x).value;
    FetchAdvances(auth, x);
    var d := f.value.decoded;
    ModeAfter(auth, f.exec, d.op, f.value.imm);
    var g := Execute(auth, f.exec, d.op, f.value.imm).value;
    TimedKeepsMode(AfterExecute(x.vm, g.exec, d.op), d.MCycles(g.value), x.vm.device.dma.active);
  }

  /** After an instruction that takes no branch the program counter is behind it, but on it after the HALT bug. */
  lemma NextInstruction(auth: Authority, x: Exec)
    requires InstructionStep(auth, x).Ok? && !InstructionStep(auth, x).value.branch
    ensures
      var r := InstructionStep(auth, x).value;
      var length := if r.decoded.length == 0 then 1 else r.decoded.length;
      r.exec.vm.core.pc == Wrap16(x.vm.core.pc + length - if x.vm.core.run == HaltBug then 1 else 0)
  {
    hide FetchWhole, Execute, AddTiming, PendingInterrupt, Wrap16, ImeAfter, RunAfter, Isa.ClassOf, Isa.Decoded.MCycles;
    var f := FetchWhole(auth, x).value;
    FetchAdvances(auth, x);
    var d := f.value.decoded;
    ModeAfter(auth, f.exec, d.op, f.value.imm);
    var g := Execute(auth, f.exec, d.op, f.value.imm).value;
    TimedKeepsMode(AfterExecute(x.vm, g.exec, d.op), d.MCycles(g.value), x.vm.device.dma.active);
  }

  /** Between EI and the end of the next instruction nothing is dispatched; after it a waiting line is. */
  lemma NothingBetween(d: Device)
    ensures Steps.ClassifyCpu(Running, EnablePending, d) == Ok(None)
    ensures PendingInterrupt(d).Some? ==>
              Steps.ClassifyCpu(Running, Enabled, d) == Ok(Some(Steps.Dispatch(PendingInterrupt(d).value)))
  {
    hide PendingInterrupt;
  }

  /** HALT stops the CPU, unless dispatch is off and a line waits already: then the CPU runs on with the HALT bug. */
  lemma RunOverInstruction(auth: Authority, x: Exec)
    requires InstructionStep(auth, x).Ok?
    ensures
      var r := InstructionStep(auth, x).value;
      r.exec.vm.core.run ==
      if r.decoded.op != Isa.Halt then RunAfter(r.decoded.op, Running)
      else if x.vm.core.ime != Enabled && x.vm.device.Pending() then HaltBug
      else Halted
  {
    hide FetchWhole, Execute, AddTiming, PendingInterrupt, Device.Pending;
    var f := FetchWhole(auth, x).value;
    FetchAdvances(auth, x);
    var d := f.value.decoded;
    ModeAfter(auth, f.exec, d.op, f.value.imm);
    var g := Execute(auth, f.exec, d.op, f.value.imm).value;
    TimedKeepsMode(AfterExecute(x.vm, g.exec, d.op), d.MCycles(g.value), x.vm.device.dma.active);
    PendingIsSome(x.vm.device);
  }

  lemma PendingIsSome(d: Device)
    ensures PendingInterrupt(d).Some? <==> d.Pending()
  {
  }
}
