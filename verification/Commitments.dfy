/** What the committed roots open to over authenticated steps and runs. */
module Commitments {

  import opened Wrappers
  import opened Devices
  import opened Bus
  import opened Decimal
  import opened Execution
  import opened MemoryLaws
  import Refinement
  import Isa
  import Mmio
  import Steps

  /** The byte each root opens to at each physical address. */
  type Opening = (int, int) -> int

  /** Accepted openings and updates agree with `open`: what the hash function's collision resistance provides. */
  ghost predicate Sound(auth: Authority, open: Opening) {
    && auth.Merkle?
    && (forall root: int, r: Read :: auth.romOk(root, r) ==> r.value == open(root, r.physical))
    && (forall root: int, r: Read :: auth.cellOk(root, r) ==> r.value == open(root, r.physical))
    && (forall root: int,
        u: Update :: auth.updated(root, u).Some? ==> Replaces(open, root, u, auth.updated(root, u).value))
  }

  /** The next root differs from the old one in the updated byte, whose old value was stated. */
  ghost predicate Replaces(open: Opening, root: int, u: Update, next: int) {
    && u.before == open(root, u.physical)
    && forall p: int :: open(next, p) == if p == u.physical then u.after as int else open(root, p)
  }

  /** A root opens to the bytes held. */
  ghost predicate Opens(open: Opening, root: int, bytes: map<int, int>) {
    forall p: int :: open(root, p) == At(bytes, p)
  }

  /** Both roots of the state open to its bytes. */
  ghost predicate Committed(open: Opening, v: Vm) {
    Opens(open, v.root, v.memory) && Opens(open, v.romRoot, v.rom)
  }

  /** From a committed state to a committed one, over the same cartridge. */
  ghost predicate Keeps(open: Opening, v: Vm, w: Vm) {
    w.rom == v.rom && w.romRoot == v.romRoot && (Committed(open, v) ==> Committed(open, w))
  }

  // ----- accesses -----

  lemma UpdateKeeps(auth: Authority, open: Opening, x: Exec, a: int, p: int, v: int)
    requires Sound(auth, open) && TakeUpdate(auth, x, a, p, v).Ok?
    ensures Keeps(open, x.vm, TakeUpdate(auth, x, a, p, v).value.exec.vm)
    ensures Committed(open, x.vm) ==> TakeUpdate(auth, x, a, p, v).value.value.before == At(x.vm.memory, p)
  {
    var u := x.witnesses[0].update;
    assert Replaces(open, x.vm.root, u, auth.updated(x.vm.root, u).value);
  }

  lemma ReadKeeps(auth: Authority, x: Exec, a: Address)
    requires ReadData(auth, x, a).Ok?
    ensures
      var v := ReadData(auth, x, a).value.exec.vm;
      v.root == x.vm.root && v.memory == x.vm.memory && v.romRoot == x.vm.romRoot && v.rom == x.vm.rom
  {
    hide Blocked, Mapper.External, Mapper.MapRom, RegisterByte, Mmio.Implemented, Mmio.SampleJoypad, Mmio.VisibleJoypad;
  }

  lemma WriteKeeps(auth: Authority, open: Opening, x: Exec, a: Address, v: Octet)
    requires Sound(auth, open) && WriteData(auth, x, a, v).Ok?
    ensures Keeps(open, x.vm, WriteData(auth, x, a, v).value.vm)
  {
    hide Blocked, Mapper.External, Mapper.Control, Mmio.WriteMmio, RegisterByte, TakeUpdate, Sound, Opens;
    if TakeUpdate(auth, x, a, a, v).Ok? { UpdateKeeps(auth, open, x, a, a, v); }
    if x.vm.mapper.External(x.vm.profile, a).Ram? {
      var p := x.vm.mapper.External(x.vm.profile, a).physical;
      if TakeUpdate(auth, x, a, p, v).Ok? { UpdateKeeps(auth, open, x, a, p, v); }
    }
  }

  lemma AccessesKeep(auth: Authority, open: Opening)
    requires Sound(auth, open)
    ensures forall x, a :: ReadData(auth, x, a).Ok? ==> Keeps(open, x.vm, ReadData(auth, x, a).value.exec.vm)
    ensures forall x, a, v :: WriteData(auth, x, a, v).Ok? ==> Keeps(open, x.vm, WriteData(auth, x, a, v).value.vm)
  {
    hide ReadData, WriteData, Opens, Sound;
    forall x, a | ReadData(auth, x, a).Ok? ensures Keeps(open, x.vm, ReadData(auth, x, a).value.exec.vm) {
      ReadKeeps(auth, x, a);
    }
    forall x, a, v | WriteData(auth, x, a, v).Ok? ensures Keeps(open, x.vm, WriteData(auth, x, a, v).value.vm) {
      WriteKeeps(auth, open, x, a, v);
    }
  }

  /** In a committed state an accepted load returns the byte held, with no trust in the witness. */
  lemma LoadIsHeld(auth: Authority, open: Opening, x: Exec, a: Address)
    requires Sound(auth, open) && Committed(open, x.vm) && ReadData(auth, x, a).Ok? && Held(x.vm, a).Some?
    ensures Held(x.vm, a) == Some(ReadData(auth, x, a).value.value)
  {
    hide Blocked, Mapper.External, Mapper.MapRom, Mmio.Implemented, RegisterByte;
  }

  /** And an accepted fetch the byte found. */
  lemma FetchIsHeld(auth: Authority, open: Opening, x: Exec, a: Address, role: Role)
    requires Sound(auth, open) && Committed(open, x.vm) && FetchInstruction(auth, x, a, role).Ok?
    ensures FetchAt(Shadow(x.vm), a) == Ok(FetchInstruction(auth, x, a, role).value.value)
  {
    hide Blocked, Mapper.MapRom;
  }

  // ----- instructions -----

  lemma StackKeeps(auth: Authority, open: Opening)
    requires Sound(auth, open)
    ensures forall x, v :: PushWord(auth, x, v).Ok? ==> Keeps(open, x.vm, PushWord(auth, x, v).value.vm)
    ensures forall x :: PopWord(auth, x).Ok? ==> Keeps(open, x.vm, PopWord(auth, x).value.exec.vm)
  {
    hide ReadData, WriteData, Opens, Sound;
    AccessesKeep(auth, open);
  }

  lemma OperandsKeep(auth: Authority, open: Opening)
    requires Sound(auth, open)
    ensures forall x, o, imm :: ReadOperand(auth, x, o, imm).Ok? ==>
              Keeps(open, x.vm, ReadOperand(auth, x, o, imm).value.exec.vm)
    ensures forall x, o, v :: WriteOperand(auth, x, o, v).Ok? ==>
              Keeps(open, x.vm, WriteOperand(auth, x, o, v).value.vm)
    ensures forall x, a, d :: TransferA(auth, x, a, d).Ok? ==> Keeps(open, x.vm, TransferA(auth, x, a, d).value.vm)
    ensures forall x, a :: StoreSp(auth, x, a).Ok? ==> Keeps(open, x.vm, StoreSp(auth, x, a).value.vm)
  {
    hide ReadData, WriteData, Opens, Sound, Reg, SetReg;
    AccessesKeep(auth, open);
  }

  lemma LoadKeeps(auth: Authority, open: Opening, x: Exec, op: Isa.Operation, imm: seq<Octet>)
    requires Sound(auth, open) && ExecuteLoad(auth, x, op, imm).Ok?
    ensures Keeps(open, x.vm, ExecuteLoad(auth, x, op, imm).value.exec.vm)
  {
    hide ReadOperand, WriteOperand, TransferA, StoreSp, Opens, Sound, SetPair, SpOffset;
    OperandsKeep(auth, open);
  }

  lemma AluKeeps(auth: Authority, open: Opening, x: Exec, op: Isa.Operation, imm: seq<Octet>)
    requires Sound(auth, open) && ExecuteAlu(auth, x, op, imm).Ok?
    ensures Keeps(open, x.vm, ExecuteAlu(auth, x, op, imm).value.exec.vm)
  {
    hide ReadOperand, WriteOperand, Opens, Sound, ApplyAlu, Increment, Decrement, SetReg;
    OperandsKeep(auth, open);
  }

  lemma RotateKeeps(auth: Authority, open: Opening, x: Exec, op: Isa.Operation, imm: seq<Octet>)
    requires Sound(auth, open) && ExecuteRotate(auth, x, op, imm).Ok?
    ensures Keeps(open, x.vm, ExecuteRotate(auth, x, op, imm).value.exec.vm)
  {
    hide ReadOperand, WriteOperand, Opens, Sound, Rotate, SetReg;
    OperandsKeep(auth, open);
  }

  lemma BitKeeps(auth: Authority, open: Opening, x: Exec, op: Isa.Operation, imm: seq<Octet>)
    requires Sound(auth, open) && ExecuteBit(auth, x, op, imm).Ok?
    ensures Keeps(open, x.vm, ExecuteBit(auth, x, op, imm).value.exec.vm)
  {
    hide ReadOperand, WriteOperand, Opens, Sound, BitOn, WithBit;
    OperandsKeep(auth, open);
  }

  lemma FlowKeeps(auth: Authority, open: Opening, x: Exec, op: Isa.Operation, imm: seq<Octet>)
    requires Sound(auth, open)
    ensures ExecuteCallReturn(auth, x, op, imm).Ok? ==>
              Keeps(open, x.vm, ExecuteCallReturn(auth, x, op, imm).value.exec.vm)
    ensures ExecuteStack(auth, x, op).Ok? ==> Keeps(open, x.vm, ExecuteStack(auth, x, op).value.exec.vm)
  {
    hide PushWord, PopWord, Opens, Sound, Holds, StackValue, SetStackPair;
    StackKeeps(auth, open);
  }

  lemma PlainKeeps(x: Exec, op: Isa.Operation, imm: seq<Octet>, open: Opening)
    ensures ExecuteControl(x, op).Ok? ==> Keeps(open, x.vm, ExecuteControl(x, op).value.exec.vm)
    ensures ExecuteAlu16(x, op, imm).Ok? ==> Keeps(open, x.vm, ExecuteAlu16(x, op, imm).value.exec.vm)
    ensures ExecuteJump(x, op, imm).Ok? ==> Keeps(open, x.vm, ExecuteJump(x, op, imm).value.exec.vm)
    ensures ExecuteInterrupt(x, op).Ok? ==> Keeps(open, x.vm, ExecuteInterrupt(x, op).value.exec.vm)
    ensures ExecuteLowPower(x, op, imm).Ok? ==> Keeps(open, x.vm, ExecuteLowPower(x, op, imm).value.exec.vm)
  {
    hide Opens, Holds, AddPair, SpOffset, Signed, DecimalAdjust, SetReg, SetPair, Pair;
  }

  lemma ExecuteKeeps(auth: Authority, open: Opening, x: Exec, op: Isa.Operation, imm: seq<Octet>)
    requires Sound(auth, open) && Execute(auth, x, op, imm).Ok?
    ensures Keeps(open, x.vm, Execute(auth, x, op, imm).value.exec.vm)
  {
    hide ExecuteControl, ExecuteLoad, ExecuteAlu, ExecuteAlu16, ExecuteRotate, ExecuteBit, ExecuteJump,
         ExecuteCallReturn, ExecuteStack, ExecuteInterrupt, ExecuteLowPower, Keeps, Sound;
    match Isa.ClassOf(op)
    case Load => LoadKeeps(auth, open, x, op, imm);
    case Alu => AluKeeps(auth, open, x, op, imm);
    case RotateShift => RotateKeeps(auth, open, x, op, imm);
    case Bit => BitKeeps(auth, open, x, op, imm);
    case CallReturn => FlowKeeps(auth, open, x, op, imm);
    case Stack => FlowKeeps(auth, open, x, op, imm);
    case _ => PlainKeeps(x, op, imm, open);
  }

  // ----- steps -----

  lemma {:induction false} ImmediatesKeep(auth: Authority, x: Exec, n: nat, open: Opening)
    requires FetchImmediates(auth, x, n).Ok?
    ensures Keeps(open, x.vm, FetchImmediates(auth, x, n).value.exec.vm)
    decreases n
  {
    hide FetchInstruction, Opens;
    if n > 0 {
      FetchKeeps(auth, x, x.vm.core.pc, ImmediateRole);
      ImmediatesKeep(auth, FetchAndAdvance(auth, x, ImmediateRole).value.exec, n - 1, open);
    }
  }

  lemma FetchKeeps(auth: Authority, x: Exec, a: Address, role: Role)
    requires FetchInstruction(auth, x, a, role).Ok?
    ensures FetchInstruction(auth, x, a, role).value.exec.vm == x.vm
  {
    hide FetchAt, Truthful;
    FetchValue(auth, x, a, role);
  }

  lemma WholeKeeps(auth: Authority, x: Exec, open: Opening)
    requires FetchWhole(auth, x).Ok?
    ensures Keeps(open, x.vm, FetchWhole(auth, x).value.exec.vm)
  {
    hide FetchInstruction, FetchImmediates, Opens, Isa.DecodeCb, Isa.DecodePrimary;
    FetchKeeps(auth, x, x.vm.core.pc, OpcodeRole);
    var first := FetchFirst(auth, x).value;
    if first.value == 0xcb {
      FetchKeeps(auth, first.exec, first.exec.vm.core.pc, OpcodeRole);
    } else {
      var d := Isa.DecodePrimary(first.value).value;
      ImmediatesKeep(auth, first.exec, if d.length == 0 then 0 else d.length - 1, open);
    }
  }

  lemma InstructionKeeps(auth: Authority, open: Opening, x: Exec)
    requires Sound(auth, open) && InstructionStep(auth, x).Ok?
    ensures Keeps(open, x.vm, InstructionStep(auth, x).value.exec.vm)
  {
    hide FetchWhole, Execute, Sound, Opens, PendingInterrupt, Device.AdvanceM;
    WholeKeeps(auth, x, open);
    var f := FetchWhole(auth, x).value;
    ExecuteKeeps(auth, open, f.exec, f.value.decoded.op, f.value.imm);
  }

  lemma EventKeeps(auth: Authority, open: Opening, x: Exec, e: MachineEvent)
    requires Sound(auth, open) && EventStep(auth, x, e).Ok?
    ensures Keeps(open, x.vm, EventStep(auth, x, e).value.vm)
  {
    hide PushWord, Sound, Opens, Device.AdvanceM, QuietLong, Mmio.AcknowledgeLine;
    StackKeeps(auth, open);
  }

  lemma CopyKeeps(auth: Authority, open: Opening, x: Exec)
    requires Sound(auth, open) && CopyDmaByte(auth, x).Ok?
    ensures Keeps(open, x.vm, CopyDmaByte(auth, x).value.vm)
  {
    hide DmaSource, TakeUpdate, Sound, Opens, Dma.Complete, Dma.SourceAddress, Dma.DestinationAddress;
    var d := x.vm.device.dma;
    SourceKeeps(auth, x, d.SourceAddress());
    var read := DmaSource(auth, x, d.SourceAddress()).value;
    UpdateKeeps(auth, open, read.exec, d.DestinationAddress(), d.DestinationAddress(), read.value);
  }

  lemma SourceKeeps(auth: Authority, x: Exec, source: int)
    requires DmaSource(auth, x, source).Ok?
    ensures DmaSource(auth, x, source).value.exec.vm == x.vm
  {
    hide Mapper.External, Mapper.MapRom;
  }

  /**
    * An accepted step of a committed state ends committed: the new root opens to the new memory at every address. And a
    * byte copied by DMA was the byte held.
    */
  lemma StepCommits(auth: Authority, open: Opening, v: Vm, witnesses: seq<Witness>)
    requires Sound(auth, open) && Committed(open, v) && Step(auth, v, witnesses).Ok?
    ensures Committed(open, Step(auth, v, witnesses).value.vm) && Refinement.TruthfulStep(v, witnesses)
  {
    hide InstructionStep, EventStep, CopyDmaByte, Sound, Opens, Steps.ClassifyCpu, Truthful;
    var x := Exec(v, witnesses, []);
    if v.device.dma.owed != 0 {
      CopyKeeps(auth, open, x);
      SoundIsBinding(auth, open, v);
      Refinement.BindingIsTruthful(auth, v, witnesses);
    } else {
      match Classify(v).value
      case Some(e) => EventKeeps(auth, open, x, e);
      case None => InstructionKeeps(auth, open, x);
    }
  }

  lemma SoundIsBinding(auth: Authority, open: Opening, v: Vm)
    requires Sound(auth, open) && Committed(open, v)
    ensures Refinement.Binding(auth, v)
  {
  }

  // ----- runs -----

  /** Every accepted run keeps the commitment, so that all bytes supplied to it were the bytes held. */
  lemma {:induction false} RunCommits(auth: Authority, open: Opening, v: Vm, inputs: seq<seq<Witness>>)
    requires Sound(auth, open) && Committed(open, v) && Refinement.RunAll(auth, v, inputs).Ok?
    ensures Committed(open, Refinement.RunAll(auth, v, inputs).value) && Refinement.TruthfulRun(auth, v, inputs)
    decreases |inputs|
  {
    hide Step, Sound, Committed, Refinement.TruthfulStep;
    if inputs != [] {
      StepCommits(auth, open, v, inputs[0]);
      RunCommits(auth, open, Step(auth, v, inputs[0]).value.vm, inputs[1..]);
    }
  }

  /**
    * Accepted witnesses alone decide: from a committed state every accepted run is a run of the plain machine over
    * well-timed instructions, and its last root opens to the plain machine's last memory.
    */
  lemma AuthenticatedRun(auth: Authority, open: Opening, v: Vm, inputs: seq<seq<Witness>>)
    returns (program: seq<Steps.Instruction>)
    requires Sound(auth, open) && Committed(open, v) && v.core.mCycles >= 0
    requires Refinement.RunAll(auth, v, inputs).Ok?
    ensures |program| == |inputs| && Steps.WellTimedAll(program)
    ensures
      var n := Refinement.RunAll(auth, v, inputs).value;
      && n.core.mCycles >= 0 && Steps.Run(Refinement.Plain(v), program) == Ok(Refinement.Plain(n))
      && forall p: int :: open(n.root, p) == At(Refinement.Plain(n).memory, p)
  {
    hide Refinement.RunAll, Refinement.TruthfulRun, Sound, Steps.Run, Steps.WellTimedAll;
    RunCommits(auth, open, v, inputs);
    program := Refinement.RunRefines(auth, v, inputs);
    Refinement.PlainParts(Refinement.RunAll(auth, v, inputs).value);
  }

  /**
    * A transfer started by decoded code, under authenticated witnesses: object memory ends up as the 160 bytes the CPU
    * saw at the moment of the FF46 store, and the last root opens to them.
    */
  lemma AuthenticatedTransfer(auth: Authority, open: Opening, v: Vm, first: seq<Witness>, e: Effects,
                              inputs: seq<seq<Witness>>, n: Vm)
    returns (k: nat, value: int)
    requires Sound(auth, open) && Committed(open, v)
    requires v.core.mCycles >= 0 && Refinement.Plain(v).Valid() && Refinement.Instructs(v) && !v.device.dma.active
    requires Step(auth, v, first) == Ok(e) && e.vm.device.dma.active
    requires Refinement.RunAll(auth, e.vm, inputs) == Ok(n) && Refinement.ActiveAll(auth, e.vm, inputs)
    requires !n.device.dma.active
    ensures n.core.mCycles >= 0 && Committed(open, n)
    ensures Refinement.Snapshot(Refinement.Plain(v), Accesses(e.events), k, value, Refinement.Plain(n))
  {
    hide Step, Refinement.RunAll, Refinement.TruthfulRun, Refinement.ActiveAll, Refinement.Snapshot, Sound, Committed,
         Machine.Valid, Refinement.Instructs, Accesses;
    StepCommits(auth, open, v, first);
    RunCommits(auth, open, e.vm, inputs);
    k, value := Refinement.DecodedTransfer(auth, v, first, e, inputs, n);
  }
}
