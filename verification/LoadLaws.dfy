/** What loads and memory operands do: registers, the accumulator's addressing modes, and (HL) as a register. */
module LoadLaws {

  import opened Wrappers
  import opened Devices
  import opened Bus
  import opened BusLaws
  import opened Execution
  import opened MemoryLaws
  import opened AluLaws
  import Isa

  // ----- registers -----

  /** LD between registers, LD of an immediate byte or word, and LD SP,HL move the value and nothing else. */
  lemma RegisterLoads(auth: Authority, x: Exec, t: Isa.Reg8, s: Isa.Reg8, p: Isa.Reg16, low: Octet, high: Octet)
    ensures
      var c := x.vm.core;
      && Execute(auth, x, Isa.Load8(Isa.Register(t), Isa.Register(s)), [])
         == Ok(Got(WithCore(x, SetReg(c, t, Reg(c, s))), false))
      && Execute(auth, x, Isa.Load8Immediate(Isa.Register(t)), [low]) == Ok(Got(WithCore(x, SetReg(c, t, low)), false))
      && Execute(auth, x, Isa.Load16Immediate(p), [low, high])
         == Ok(Got(WithCore(x, SetPair(c, p, low + 256 * high)), false))
      && Execute(auth, x, Isa.LoadSpHl, []) == Ok(Got(WithCore(x, c.(sp := 256 * c.regs.h + c.regs.l)), false))
  {
    hide Reg, SetReg, SetPair, ReadData, WriteData, ExecuteAlu, ExecuteRotate, ExecuteBit, ExecuteControl, ExecuteAlu16,
         ExecuteJump, ExecuteCallReturn, ExecuteStack, ExecuteInterrupt, ExecuteLowPower;
  }

  // ----- the accumulator -----

  /** Loads and stores of A through memory, with their immediate bytes. */
  predicate Accumulator(op: Isa.Operation, imm: seq<Octet>) {
    match op
    case LoadAccumulatorIndirect(_, _) => true
    case HighCLoad(_) => true
    case HighImmediateLoad(_) => |imm| >= 1
    case AbsoluteLoad(_) => |imm| >= 2
    case _ => false
  }

  function DirectionOf(op: Isa.Operation, imm: seq<Octet>): Isa.Direction
    requires Accumulator(op, imm)
  {
    op.direction
  }

  function WordOf(high: Octet, low: Octet): Address { 256 * high + low }

  /** The address meant. */
  function Target(c: Core, op: Isa.Operation, imm: seq<Octet>): Address
    requires Accumulator(op, imm)
  {
    match op
    case LoadAccumulatorIndirect(ViaBC, _) => WordOf(c.regs.b, c.regs.c)
    case LoadAccumulatorIndirect(ViaDE, _) => WordOf(c.regs.d, c.regs.e)
    case LoadAccumulatorIndirect(_, _) => WordOf(c.regs.h, c.regs.l)
    case HighCLoad(_) => WordOf(0xff, c.regs.c)
    case HighImmediateLoad(_) => WordOf(0xff, imm[0])
    case AbsoluteLoad(_) => WordOf(imm[1], imm[0])
  }

  /** How far HL moves afterwards. */
  function HlStep(op: Isa.Operation): int {
    if !op.LoadAccumulatorIndirect? then 0
    else match op.via case ViaHLIncrement => 1 case ViaHLDecrement => -1 case _ => 0
  }

  function HlMoved(c: Core, op: Isa.Operation): Core {
    SetPair(c, Isa.HL, (256 * c.regs.h + c.regs.l + HlStep(op)) % 65536)
  }

  lemma AccumulatorRuns(auth: Authority, x: Exec, op: Isa.Operation, imm: seq<Octet>)
    requires Accumulator(op, imm) && Execute(auth, x, op, imm).Ok?
    ensures
      var t := TransferA(auth, x, Target(x.vm.core, op, imm), DirectionOf(op, imm));
      && t.Ok?
      && Execute(auth, x, op, imm) == Ok(Got(WithCore(t.value, HlMoved(t.value.vm.core, op)), false))
  {
    hide TransferA, ExecuteAlu, ExecuteRotate, ExecuteBit, ExecuteControl, ExecuteAlu16, ExecuteJump, ExecuteCallReturn,
         ExecuteStack, ExecuteInterrupt, ExecuteLowPower;
    var t := TransferA(auth, x, Target(x.vm.core, op, imm), DirectionOf(op, imm));
    if t.Ok? && HlStep(op) == 0 { HlKept(t.value.vm.core); }
  }

  lemma HlKept(c: Core)
    ensures SetPair(c, Isa.HL, (256 * c.regs.h + c.regs.l) % 65536) == c
  {
  }

  /** A store of A puts it at the address of its addressing mode and nowhere else; HL moves by its step. */
  lemma AccumulatorStored(auth: Authority, x: Exec, op: Isa.Operation, imm: seq<Octet>, b: int)
    requires Accumulator(op, imm) && DirectionOf(op, imm) == Isa.FromA && Execute(auth, x, op, imm).Ok?
    requires x.vm.mapper.Valid(x.vm.profile) && 0 <= b < 0x10000
    requires CellOf(x.vm.profile, x.vm.mapper, Target(x.vm.core, op, imm)).Some?
    ensures
      var y := Execute(auth, x, op, imm).value.exec.vm;
      && Held(y, b) == (if b == Target(x.vm.core, op, imm) then Some(x.vm.core.regs.a) else Held(x.vm, b))
      && y.core == HlMoved(x.vm.core, op)
  {
    hide Execute, Target, WriteData, Held, CellOf, HlMoved;
    var a := Target(x.vm.core, op, imm);
    AccumulatorRuns(auth, x, op, imm);
    WriteValue(auth, x, a, x.vm.core.regs.a);
    WriteHeld(auth, x, a, x.vm.core.regs.a, b);
    SameBytes(WriteData(auth, x, a, x.vm.core.regs.a).value.vm, Execute(auth, x, op, imm).value.exec.vm);
  }

  /** A load of A takes the byte held at the address of its addressing mode; HL moves by its step. */
  lemma AccumulatorLoaded(auth: Authority, x: Exec, op: Isa.Operation, imm: seq<Octet>)
    requires Accumulator(op, imm) && DirectionOf(op, imm) == Isa.IntoA && Execute(auth, x, op, imm).Ok?
    requires Held(x.vm, Target(x.vm.core, op, imm)).Some? && TruthfulTo(x, 1)
    ensures
      var y := Execute(auth, x, op, imm).value.exec.vm;
      && Some(y.core.regs.a as int) == Held(x.vm, Target(x.vm.core, op, imm))
      && y == x.vm.(core := HlMoved(x.vm.core.(regs := x.vm.core.regs.(a := y.core.regs.a)), op))
  {
    hide Execute, Target, ReadData, Held, HlMoved;
    var a := Target(x.vm.core, op, imm);
    AccumulatorRuns(auth, x, op, imm);
    ReadValue(auth, x, a);
    HlKeepsA(SetReg(x.vm.core, Isa.A, ReadData(auth, x, a).value.value), op);
  }

  lemma HlKeepsA(c: Core, op: Isa.Operation)
    ensures HlMoved(c, op).regs.a == c.regs.a
  {
  }

  // ----- (HL) as a register -----

  /** The operation on another operand. */
  function Over(op: Isa.Operation, o: Isa.Operand): Isa.Operation {
    match op
    case Increment8(_) => Isa.Increment8(o)
    case Decrement8(_) => Isa.Decrement8(o)
    case Cb(cb, _) => Isa.Cb(cb, o)
    case Alu8(alu, _) => Isa.Alu8(alu, o)
    case Load8(t, _) => Isa.Load8(t, o)
    case _ => op
  }

  /** The same executor with a byte in B. */
  function InB(x: Exec, v: Octet): Exec { WithCore(x, SetReg(x.vm.core, Isa.B, v)) }

  /** The byte is at (HL) and its witness says so. */
  predicate AtHl(x: Exec, v: Octet) {
    Held(x.vm, Pair(x.vm.core, Isa.HL)) == Some(v) && TruthfulTo(x, 1)
  }

  /** INC, DEC, rotations, shifts, BIT, SET and RES change the byte at (HL) and the flags as they would a register. */
  lemma MemoryModified(auth: Authority, x: Exec, op: Isa.Operation, v: Octet)
    requires op.Increment8? || op.Decrement8? || op.Cb?
    requires AtHl(x, v) && x.vm.mapper.Valid(x.vm.profile)
    requires CellOf(x.vm.profile, x.vm.mapper, Pair(x.vm.core, Isa.HL)).Some?
    requires Execute(auth, x, Over(op, Isa.AtHL), []).Ok?
    ensures
      var y, w := Execute(auth, x, Over(op, Isa.AtHL), []).value.exec.vm,
        Execute(auth, InB(x, v), Over(op, Isa.Register(Isa.B)), []);
      && w.Ok? && y.core == x.vm.core.(flags := w.value.exec.vm.core.flags)
      && Held(y, Pair(x.vm.core, Isa.HL)) == Some(w.value.exec.vm.core.regs.b as int)
  {
    hide Execute, ReadData, WriteData, Held, CellOf, Pair;
    InPlaceReads(auth, x, op);
    ReadValue(auth, x, Pair(x.vm.core, Isa.HL));
    var got := ReadData(auth, x, Pair(x.vm.core, Isa.HL)).value.exec;
    if op.Cb? && op.cb.TestBit? {
      TestedInPlace(auth, x, op.cb, v);
      SameBytes(x.vm, Execute(auth, x, Over(op, Isa.AtHL), []).value.exec.vm);
    } else {
      var r := ModifiedInPlace(auth, x, op, v);
      WriteValue(auth, got, Pair(x.vm.core, Isa.HL), r);
      WriteHeld(auth, got, Pair(x.vm.core, Isa.HL), r, Pair(x.vm.core, Isa.HL));
      var y := WriteData(auth, got, Pair(x.vm.core, Isa.HL), r).value;
      SameBytes(y.vm, Execute(auth, x, Over(op, Isa.AtHL), []).value.exec.vm);
    }
  }

  lemma InPlaceReads(auth: Authority, x: Exec, op: Isa.Operation)
    requires op.Increment8? || op.Decrement8? || op.Cb?
    requires Execute(auth, x, Over(op, Isa.AtHL), []).Ok?
    ensures ReadData(auth, x, Pair(x.vm.core, Isa.HL)).Ok?
  {
    hide ReadData, WriteData, Pair, Rotate, BitOn, WithBit, Increment, Decrement, ExecuteLoad, ExecuteControl,
         ExecuteAlu16, ExecuteJump, ExecuteCallReturn, ExecuteStack, ExecuteInterrupt, ExecuteLowPower;
  }

  predicate BitWrites(op: Isa.Operation) { op.Cb? && (op.cb.SetBit? || op.cb.ResetBit?) }

  /** The byte written back is the one the operation leaves in B. */
  lemma ModifiedInPlace(auth: Authority, x: Exec, op: Isa.Operation, v: Octet) returns (r: Octet)
    requires (op.Increment8? || op.Decrement8? || op.Cb?) && !(op.Cb? && op.cb.TestBit?)
    requires ReadData(auth, x, Pair(x.vm.core, Isa.HL)).Ok?
    requires
      var g := ReadData(auth, x, Pair(x.vm.core, Isa.HL)).value;
      g.value == v && g.exec.vm == x.vm
    requires Execute(auth, x, Over(op, Isa.AtHL), []).Ok?
    ensures
      var w := Execute(auth, InB(x, v), Over(op, Isa.Register(Isa.B)), []);
      var y := WriteData(auth, ReadData(auth, x, Pair(x.vm.core, Isa.HL)).value.exec, Pair(x.vm.core, Isa.HL), r);
      && w.Ok? && y.Ok? && r == w.value.exec.vm.core.regs.b
      && Execute(auth, x, Over(op, Isa.AtHL), []).value.exec == WithCore(
        y.value, y.value.vm.core.(flags := if BitWrites(op) then y.value.vm.core.flags else w.value.exec.vm.core.flags))
      && (BitWrites(op) ==> w.value.exec.vm.core.flags == x.vm.core.flags)
  {
    hide ReadData, WriteData, Pair, Rotate, BitOn, WithBit, Increment, Decrement, ExecuteLoad, ExecuteControl,
         ExecuteAlu16, ExecuteJump, ExecuteCallReturn, ExecuteStack, ExecuteInterrupt, ExecuteLowPower;
    r := Execute(auth, InB(x, v), Over(op, Isa.Register(Isa.B)), []).value.exec.vm.core.regs.b;
  }

  lemma TestedInPlace(auth: Authority, x: Exec, cb: Isa.CbOp, v: Octet)
    requires cb.TestBit? && ReadData(auth, x, Pair(x.vm.core, Isa.HL)).Ok?
    requires
      var g := ReadData(auth, x, Pair(x.vm.core, Isa.HL)).value;
      g.value == v && g.exec.vm == x.vm
    requires Execute(auth, x, Isa.Cb(cb, Isa.AtHL), []).Ok?
    ensures
      var y, w := Execute(auth, x, Isa.Cb(cb, Isa.AtHL), []).value.exec.vm,
        Execute(auth, InB(x, v), Isa.Cb(cb, Isa.Register(Isa.B)), []);
      w.Ok? && w.value.exec.vm.core.regs.b == v && y == x.vm.(core := x.vm.core.(flags := w.value.exec.vm.core.flags))
  {
    hide ReadData, WriteData, Pair, BitOn, ExecuteLoad, ExecuteAlu, ExecuteRotate, ExecuteControl, ExecuteAlu16,
         ExecuteJump, ExecuteCallReturn, ExecuteStack, ExecuteInterrupt, ExecuteLowPower;
  }

  /** The eight operations on A and LD r,(HL) take the byte at (HL) as they would B. */
  lemma MemoryOperand(auth: Authority, x: Exec, op: Isa.Operation, v: Octet)
    requires op.Alu8? || (op.Load8? && op.target.Register? && op.target.r != Isa.B)
    requires AtHl(x, v) && Execute(auth, x, Over(op, Isa.AtHL), []).Ok?
    ensures
      var y, w := Execute(auth, x, Over(op, Isa.AtHL), []).value.exec.vm,
        Execute(auth, InB(x, v), Over(op, Isa.Register(Isa.B)), []);
      && w.Ok?
      && y == x.vm.(core := w.value.exec.vm.core.(regs := w.value.exec.vm.core.regs.(b := x.vm.core.regs.b)))
  {
    hide ReadData, WriteData, Held, Pair, ApplyAlu, ExecuteRotate, ExecuteBit, ExecuteControl, ExecuteAlu16,
         ExecuteJump, ExecuteCallReturn, ExecuteStack, ExecuteInterrupt, ExecuteLowPower;
    ReadValue(auth, x, Pair(x.vm.core, Isa.HL));
  }

  /** LD (HL),r and LD (HL),n leave the byte at (HL) and every other byte as it was. */
  lemma MemoryStored(auth: Authority, x: Exec, source: Isa.Operand, v: Octet, b: int)
    requires source != Isa.AtHL && 0 <= b < 0x10000 && x.vm.mapper.Valid(x.vm.profile)
    requires CellOf(x.vm.profile, x.vm.mapper, Pair(x.vm.core, Isa.HL)).Some?
    requires v == Operand(x.vm.core, source, [v])
    requires
      var op := if source == Isa.ImmediateByte then Isa.Load8Immediate(Isa.AtHL) else Isa.Load8(Isa.AtHL, source);
      Execute(auth, x, op, [v]).Ok?
    ensures
      var op := if source == Isa.ImmediateByte then Isa.Load8Immediate(Isa.AtHL) else Isa.Load8(Isa.AtHL, source);
      var y := Execute(auth, x, op, [v]).value.exec.vm;
      && Held(y, b) == (if b == Pair(x.vm.core, Isa.HL) then Some(v) else Held(x.vm, b)) && y.core == x.vm.core
  {
    hide ReadData, WriteData, Held, Pair, CellOf;
    WriteValue(auth, x, Pair(x.vm.core, Isa.HL), v);
    WriteHeld(auth, x, Pair(x.vm.core, Isa.HL), v, b);
  }
}
