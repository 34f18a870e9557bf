/** The SM83 opcode table: decoding, instruction classes, declared bus accesses and M-cycles. */
module Isa {

  import opened Wrappers

  datatype Reg8 = A | B | C | D | E | H | L
  datatype Reg16 = BC | DE | HL | SP
  datatype StackPair = PairBC | PairDE | PairHL | PairAF
  datatype Operand = Register(r: Reg8) | ImmediateByte | AtHL
  datatype Condition = NotZero | IfZero | NotCarry | IfCarry
  datatype AluOp = AddA | AddCarryA | SubA | SubCarryA | AndA | XorA | OrA | CompareA
  datatype CbOp = Rlc | Rrc | Rl | Rr | Sla | Sra | Swap | Srl | TestBit(bit: int) | ResetBit(bit: int)
    | SetBit(bit: int)
  datatype Indirect = ViaBC | ViaDE | ViaHLIncrement | ViaHLDecrement
  datatype Direction = IntoA | FromA

  datatype Operation =
    | Nop | StoreSpAbsolute | Stop | RelativeJump(condition: Option<Condition>)
    | Load16Immediate(pair: Reg16) | AddHl(pair: Reg16) | LoadAccumulatorIndirect(via: Indirect, direction: Direction)
    | Increment16(pair: Reg16) | Decrement16(pair: Reg16) | Increment8(target: Operand) | Decrement8(target: Operand)
    | Load8Immediate(target: Operand) | RotateAccumulator(cb: CbOp) | DecimalAdjustA | ComplementA | SetCarry
    | ComplementCarry
    | Load8(target: Operand, source: Operand) | Halt | Alu8(alu: AluOp, source: Operand)
    | Return(condition: Option<Condition>)
    | HighImmediateLoad(direction: Direction) | AddSpOffset | LoadHlSpOffset | Pop(stack: StackPair)
    | ReturnFromInterrupt
    | JumpHl | LoadSpHl | Jump(condition: Option<Condition>) | HighCLoad(direction: Direction)
    | AbsoluteLoad(direction: Direction) | PrefixCb | DisableInterrupts | EnableInterrupts
    | Call(condition: Option<Condition>)
    | Push(stack: StackPair) | Restart(vector: int) | Cb(cb: CbOp, target: Operand)

  datatype Class = Control | Load | Alu | Alu16 | RotateShift | Bit | Jumps | CallReturn | Stack | Interrupts
    | LowPower | Prefix

  function ClassOf(op: Operation): Class {
    match op
    case Nop | DecimalAdjustA | ComplementA | SetCarry | ComplementCarry => Control
    case StoreSpAbsolute | Load16Immediate(_) | LoadAccumulatorIndirect(_, _) | Load8Immediate(_) | Load8(_, _)
       | HighImmediateLoad(_) | LoadHlSpOffset | LoadSpHl | HighCLoad(_) | AbsoluteLoad(_) => Load
    case Increment8(_) | Decrement8(_) | Alu8(_, _) => Alu
    case AddHl(_) | Increment16(_) | Decrement16(_) | AddSpOffset => Alu16
    case RotateAccumulator(_) => RotateShift
    case Cb(cb, _) => if cb.TestBit? || cb.ResetBit? || cb.SetBit? then Bit else RotateShift
    case RelativeJump(_) | JumpHl | Jump(_) => Jumps
    case Return(_) | ReturnFromInterrupt | Call(_) | Restart(_) => CallReturn
    case Pop(_) | Push(_) => Stack
    case DisableInterrupts | EnableInterrupts => Interrupts
    case Stop | Halt => LowPower
    case PrefixCb => Prefix
  }

  /** A decoded instruction: length in bytes and M-cycles, with the longer count of a taken branch. */
  datatype Decoded = Decoded(op: Operation, prefixed: bool, length: nat, base: nat, taken: Option<nat>) {
    function MCycles(branch: bool): nat { if branch && taken.Some? then taken.value else base }
  }

  // ----- decoding -----

  function OperandOf(code: int): Operand {
    match code
    case 0 => Register(B) case 1 => Register(C) case 2 => Register(D) case 3 => Register(E)
    case 4 => Register(H) case 5 => Register(L) case 6 => AtHL case _ => Register(A)
  }

  function PairOf(code: int): Reg16 { match code case 0 => BC case 1 => DE case 2 => HL case _ => SP }
  function StackPairOf(code: int): StackPair {
    match code case 0 => PairBC case 1 => PairDE case 2 => PairHL case _ => PairAF
  }
  function ConditionOf(code: int): Condition {
    match code case 0 => NotZero case 1 => IfZero case 2 => NotCarry case _ => IfCarry
  }

  function AluOf(code: int): AluOp {
    match code
    case 0 => AddA case 1 => AddCarryA case 2 => SubA case 3 => SubCarryA
    case 4 => AndA case 5 => XorA case 6 => OrA case _ => CompareA
  }

  function RotateOf(code: int): CbOp {
    match code case 0 => Rlc case 1 => Rrc case 2 => Rl case 3 => Rr case 4 => Sla case 5 => Sra case 6 => Swap
    case _ => Srl
  }

  function Plain(op: Operation, length: nat, cycles: nat): Decoded { Decoded(op, false, length, cycles, None) }
  function Conditional(op: Operation, length: nat, base: nat, taken: nat): Decoded {
    Decoded(op, false, length, base, Some(taken))
  }

  function MiscOf(y: int): (op: Operation)
    ensures op.RotateAccumulator? || op.DecimalAdjustA? || op.ComplementA? || op.SetCarry? || op.ComplementCarry?
  {
    match y
    case 0 => RotateAccumulator(Rlc) case 1 => RotateAccumulator(Rrc) case 2 => RotateAccumulator(Rl)
    case 3 => RotateAccumulator(Rr)
    case 4 => DecimalAdjustA case 5 => ComplementA case 6 => SetCarry case _ => ComplementCarry
  }

  function IndirectOf(y: int): Operation {
    var via := match y / 2 case 0 => ViaBC case 1 => ViaDE case 2 => ViaHLIncrement case _ => ViaHLDecrement;
    LoadAccumulatorIndirect(via, if y % 2 == 0 then FromA else IntoA)
  }

  function BlockZero(y: int, z: int): Decoded {
    match z
    case 0 =>
      (match y
       case 0 => Plain(Nop, 1, 1)
       case 1 => Plain(StoreSpAbsolute, 3, 5)
       case 2 => Plain(Stop, 2, 1)
       case 3 => Plain(RelativeJump(None), 2, 3)
       case _ => Conditional(RelativeJump(Some(ConditionOf(y - 4))), 2, 2, 3))
    case 1 => if y % 2 == 0 then Plain(Load16Immediate(PairOf(y / 2)), 3, 3) else Plain(AddHl(PairOf(y / 2)), 1, 2)
    case 2 => Plain(IndirectOf(y), 1, 2)
    case 3 => if y % 2 == 0 then Plain(Increment16(PairOf(y / 2)), 1, 2) else Plain(Decrement16(PairOf(y / 2)), 1, 2)
    case 4 => Plain(Increment8(OperandOf(y)), 1, if y == 6 then 3 else 1)
    case 5 => Plain(Decrement8(OperandOf(y)), 1, if y == 6 then 3 else 1)
    case 6 => Plain(Load8Immediate(OperandOf(y)), 2, if y == 6 then 3 else 2)
    case _ => Plain(MiscOf(y), 1, 1)
  }

  function BlockOne(y: int, z: int): Decoded {
    if y == 6 && z == 6 then Plain(Halt, 1, 1)
      else Plain(Load8(OperandOf(y), OperandOf(z)), 1, if y == 6 || z == 6 then 2 else 1)
  }

  function BlockTwo(y: int, z: int): Decoded { Plain(Alu8(AluOf(y), OperandOf(z)), 1, if z == 6 then 2 else 1) }

  function BlockThree(y: int, z: int): Decoded {
    match z
    case 0 =>
      if y <= 3 then Conditional(Return(Some(ConditionOf(y))), 1, 2, 5)
      else if y == 4 then Plain(HighImmediateLoad(FromA), 2, 3)
      else if y == 5 then Plain(AddSpOffset, 2, 4)
      else if y == 6 then Plain(HighImmediateLoad(IntoA), 2, 3)
      else Plain(LoadHlSpOffset, 2, 3)
    case 1 =>
      if y % 2 == 0 then Plain(Pop(StackPairOf(y / 2)), 1, 3)
      else if y / 2 == 0 then Plain(Return(None), 1, 4)
      else if y / 2 == 1 then Plain(ReturnFromInterrupt, 1, 4)
      else if y / 2 == 2 then Plain(JumpHl, 1, 1)
      else Plain(LoadSpHl, 1, 2)
    case 2 =>
      if y <= 3 then Conditional(Jump(Some(ConditionOf(y))), 3, 3, 4)
      else if y == 4 then Plain(HighCLoad(FromA), 1, 2)
      else if y == 5 then Plain(AbsoluteLoad(FromA), 3, 4)
      else if y == 6 then Plain(HighCLoad(IntoA), 1, 2)
      else Plain(AbsoluteLoad(IntoA), 3, 4)
    case 3 =>
      if y == 0 then Plain(Jump(None), 3, 4)
      else if y == 1 then Plain(PrefixCb, 1, 1)
      else if y == 6 then Plain(DisableInterrupts, 1, 1)
      else Plain(EnableInterrupts, 1, 1)
    case 4 => Conditional(Call(Some(ConditionOf(y))), 3, 3, 6)
    case 5 => if y % 2 == 0 then Plain(Push(StackPairOf(y / 2)), 1, 4) else Plain(Call(None), 3, 6)
    case 6 => Plain(Alu8(AluOf(y), ImmediateByte), 2, 2)
    case _ => Plain(Restart(8 * y), 1, 4)
  }

  predicate Undefined(byte: int) { byte in {0xd3, 0xdb, 0xdd, 0xe3, 0xe4, 0xeb, 0xec, 0xed, 0xf4, 0xfc, 0xfd} }

  function DecodePrimary(byte: int): Option<Decoded> {
    if Undefined(byte) then None
    else
      var x, y, z := byte / 64, byte / 8 % 8, byte % 8;
      Some(if x == 0 then BlockZero(y, z) else if x == 1 then BlockOne(y, z) else if x == 2 then BlockTwo(y, z)
           else BlockThree(y, z))
  }

  function DecodeCb(byte: int): Decoded {
    var x, y, target := byte / 64, byte / 8 % 8, OperandOf(byte % 8);
    var cb := match x case 0 => RotateOf(y) case 1 => TestBit(y) case 2 => ResetBit(y) case _ => SetBit(y);
    Decoded(Cb(cb, target), true, 2, if target != AtHL then 2 else if x == 1 then 3 else 4, None)
  }

  // ----- declared bus accesses -----

  datatype Pattern = Pattern(opcodes: int, immediates: int, loads: int, stores: int, takenLoads: int,
                             takenStores: int) {
    function Loads(branch: bool): int { loads + if branch then takenLoads else 0 }
    function Stores(branch: bool): int { stores + if branch then takenStores else 0 }
    function Total(branch: bool): int { opcodes + immediates + Loads(branch) + Stores(branch) }
  }

  function Data(loads: int, stores: int, takenLoads: int, takenStores: int): Pattern {
    Pattern(0, 0, loads, stores, takenLoads, takenStores)
  }

  const NoData := Pattern(0, 0, 0, 0, 0, 0)

  /** Data reads and writes, then those only a taken branch makes. */
  function DataPattern(op: Operation): Pattern {
    match op
    case StoreSpAbsolute => Data(0, 2, 0, 0)
    case LoadAccumulatorIndirect(_, direction) => DirectionPattern(direction)
    case HighImmediateLoad(direction) => DirectionPattern(direction)
    case HighCLoad(direction) => DirectionPattern(direction)
    case AbsoluteLoad(direction) => DirectionPattern(direction)
    case Increment8(target) => if target == AtHL then Data(1, 1, 0, 0) else NoData
    case Decrement8(target) => if target == AtHL then Data(1, 1, 0, 0) else NoData
    case Load8Immediate(target) => if target == AtHL then Data(0, 1, 0, 0) else NoData
    case Load8(target, source) =>
      if target == AtHL then Data(0, 1, 0, 0) else if source == AtHL then Data(1, 0, 0, 0) else NoData
    case Alu8(_, source) => if source == AtHL then Data(1, 0, 0, 0) else NoData
    case Return(condition) => if condition.Some? then Data(0, 0, 2, 0) else Data(2, 0, 0, 0)
    case ReturnFromInterrupt => Data(2, 0, 0, 0)
    case Pop(_) => Data(2, 0, 0, 0)
    case Call(condition) => if condition.Some? then Data(0, 0, 0, 2) else Data(0, 2, 0, 0)
    case Push(_) => Data(0, 2, 0, 0)
    case Restart(_) => Data(0, 2, 0, 0)
    case Cb(cb, target) => if target != AtHL then NoData else if cb.TestBit? then Data(1, 0, 0, 0) else Data(1, 1, 0, 0)
    case _ => NoData
  }

  function DirectionPattern(direction: Direction): Pattern {
    if direction == IntoA then Data(1, 0, 0, 0) else Data(0, 1, 0, 0)
  }

  function BusPattern(d: Decoded): Pattern {
    DataPattern(d.op).(opcodes := if d.prefixed then 2 else 1,
                       immediates := if d.prefixed || d.length == 0 then 0 else d.length - 1)
  }

  /** What the decoder can return: a primary opcode other than the CB prefix, or a CB opcode. */
  predicate Decodes(d: Decoded) {
    (exists byte :: 0 <= byte < 256 && byte != 0xcb && DecodePrimary(byte) == Some(d))
    || exists byte :: 0 <= byte < 256 && DecodeCb(byte) == d
  }

  lemma FieldRanges(byte: int)
    requires 0 <= byte < 256
    ensures 0 <= byte / 64 < 4 && 0 <= byte / 8 % 8 < 8 && 0 <= byte % 8 < 8
    ensures byte == 64 * (byte / 64) + 8 * (byte / 8 % 8) + byte % 8
  {
    assert byte / 8 / 8 == byte / 64;
  }

  /** Every row of the table fits five bus events and six M-cycles, and never copies (HL) to (HL). */
  predicate Fits(d: Decoded, branch: bool) {
    && BusPattern(d).Total(branch) <= 5 && 1 <= d.MCycles(branch) <= 6
    && d.op != Load8(AtHL, AtHL) && d.op != PrefixCb
    && (BusPattern(d).Total(branch) <= d.MCycles(branch) <==> d.op != Stop)
  }

  lemma BlockZeroLow(y: int, z: int, branch: bool)
    requires 0 <= y < 8 && 0 <= z < 2
    ensures Fits(BlockZero(y, z), branch)
  {
  }

  lemma BlockZeroMiddle(y: int, z: int, branch: bool)
    requires 0 <= y < 8 && 2 <= z < 4
    ensures Fits(BlockZero(y, z), branch)
  {
    hide PairOf;
  }

  lemma BlockZeroHigh(y: int, z: int, branch: bool)
    requires 0 <= y < 8 && 4 <= z < 7
    ensures Fits(BlockZero(y, z), branch)
  {
    assert OperandOf(y) == AtHL <==> y == 6;
    hide PairOf, IndirectOf, ConditionOf, OperandOf, MiscOf;
  }

  lemma BlockZeroLast(y: int, branch: bool)
    requires 0 <= y < 8
    ensures Fits(BlockZero(y, 7), branch)
  {
    hide PairOf, IndirectOf, ConditionOf, OperandOf, MiscOf, Fits;
    MiscFits(MiscOf(y), branch);
  }

  lemma MiscFits(op: Operation, branch: bool)
    requires op.RotateAccumulator? || op.DecimalAdjustA? || op.ComplementA? || op.SetCarry? || op.ComplementCarry?
    ensures Fits(Plain(op, 1, 1), branch)
  {
  }

  lemma BlockOneFits(y: int, z: int, branch: bool)
    requires 0 <= y < 8 && 0 <= z < 8
    ensures Fits(BlockOne(y, z), branch)
  {
  }

  lemma BlockTwoFits(y: int, z: int, branch: bool)
    requires 0 <= y < 8 && 0 <= z < 8
    ensures Fits(BlockTwo(y, z), branch)
  {
    hide AluOf;
  }

  lemma BlockThreeLow(y: int, z: int, branch: bool)
    requires 0 <= y < 8 && 0 <= z < 2
    ensures Fits(BlockThree(y, z), branch)
  {
    hide ConditionOf, StackPairOf;
  }

  lemma BlockThreeJumps(y: int, branch: bool)
    requires 0 <= y < 4
    ensures Fits(BlockThree(y, 2), branch)
  {
    hide ConditionOf;
  }

  lemma BlockThreeLoads(y: int, branch: bool)
    requires 4 <= y < 8
    ensures Fits(BlockThree(y, 2), branch)
  {
  }

  lemma BlockThreeControl(y: int, branch: bool)
    requires 0 <= y < 8 && y != 1
    ensures Fits(BlockThree(y, 3), branch)
  {
  }

  lemma BlockThreeHigh(y: int, z: int, branch: bool)
    requires 0 <= y < 8 && 4 <= z < 8
    ensures Fits(BlockThree(y, z), branch)
  {
    hide ConditionOf, StackPairOf, AluOf;
  }

  lemma CbFits(byte: int, branch: bool)
    requires 0 <= byte < 256
    ensures Fits(DecodeCb(byte), branch)
  {
    FieldRanges(byte);
  }

  /** The whole table; an access takes an M-cycle each in every row but STOP, which fetches two bytes in one. */
  lemma TableFits(d: Decoded, branch: bool)
    requires Decodes(d)
    ensures Fits(d, branch)
  {
    hide BlockZero, BlockOne, BlockTwo, BlockThree, Fits, DecodeCb;
    if byte :| 0 <= byte < 256 && byte != 0xcb && DecodePrimary(byte) == Some(d) {
      FieldRanges(byte);
      var x, y, z := byte / 64, byte / 8 % 8, byte % 8;
      if x == 0 {
        if z < 2 { BlockZeroLow(y, z, branch); }
        else if z < 4 { BlockZeroMiddle(y, z, branch); }
        else if z < 7 { BlockZeroHigh(y, z, branch); }
        else { BlockZeroLast(y, branch); }
      } else if x == 1 {
        BlockOneFits(y, z, branch);
      } else if x == 2 {
        BlockTwoFits(y, z, branch);
      } else {
        if z < 2 { BlockThreeLow(y, z, branch); }
        else if z == 2 && y < 4 { BlockThreeJumps(y, branch); }
        else if z == 2 { BlockThreeLoads(y, branch); }
        else if z == 3 { BlockThreeControl(y, branch); }
        else { BlockThreeHigh(y, z, branch); }
      }
    } else {
      var byte :| 0 <= byte < 256 && DecodeCb(byte) == d;
      CbFits(byte, branch);
    }
  }
}
