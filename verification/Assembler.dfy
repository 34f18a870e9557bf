/** An assembler written from the instruction set's own layout, and the decoder as its inverse. */
module Assembler {

  import opened Wrappers
  import opened Isa

  // ----- field codes -----

  function RegisterCode(r: Reg8): int {
    match r case B => 0 case C => 1 case D => 2 case E => 3 case H => 4 case L => 5 case A => 7
  }

  function OperandCode(o: Operand): int { match o case Register(r) => RegisterCode(r) case _ => 6 }

  function PairCode(p: Reg16): int { match p case BC => 0 case DE => 16 case HL => 32 case SP => 48 }
  function StackCode(p: StackPair): int {
    match p case PairBC => 0 case PairDE => 16 case PairHL => 32 case PairAF => 48
  }

  function ConditionCode(c: Condition): int {
    match c case NotZero => 0 case IfZero => 8 case NotCarry => 16 case IfCarry => 24
  }

  function AluCode(op: AluOp): int {
    match op
    case AddA => 0 case AddCarryA => 8 case SubA => 16 case SubCarryA => 24
    case AndA => 32 case XorA => 40 case OrA => 48 case CompareA => 56
  }

  function ViaCode(via: Indirect): int {
    match via case ViaBC => 0 case ViaDE => 16 case ViaHLIncrement => 32 case ViaHLDecrement => 48
  }

  /** Second byte of a CB instruction, without its operand. */
  function CbCode(cb: CbOp): int {
    match cb
    case Rlc => 0 case Rrc => 8 case Rl => 16 case Rr => 24 case Sla => 32 case Sra => 40 case Swap => 48 case Srl => 56
    case TestBit(bit) => 0x40 + 8 * bit
    case ResetBit(bit) => 0x80 + 8 * bit
    case SetBit(bit) => 0xc0 + 8 * bit
  }

  // ----- the byte of an operation -----

  function Encode(op: Operation): int {
    match op
    case Nop => 0x00
    case StoreSpAbsolute => 0x08
    case Stop => 0x10
    case RelativeJump(condition) => (match condition case None => 0x18 case Some(c) => 0x20 + ConditionCode(c))
    case Load16Immediate(pair) => 0x01 + PairCode(pair)
    case AddHl(pair) => 0x09 + PairCode(pair)
    case LoadAccumulatorIndirect(via, direction) => (if direction == FromA then 0x02 else 0x0a) + ViaCode(via)
    case Increment16(pair) => 0x03 + PairCode(pair)
    case Decrement16(pair) => 0x0b + PairCode(pair)
    case Increment8(target) => 0x04 + 8 * OperandCode(target)
    case Decrement8(target) => 0x05 + 8 * OperandCode(target)
    case Load8Immediate(target) => 0x06 + 8 * OperandCode(target)
    case RotateAccumulator(cb) => 0x07 + CbCode(cb)
    case DecimalAdjustA => 0x27
    case ComplementA => 0x2f
    case SetCarry => 0x37
    case ComplementCarry => 0x3f
    case Load8(target, source) => 0x40 + 8 * OperandCode(target) + OperandCode(source)
    case Halt => 0x76
    case Alu8(alu, source) => (if source == ImmediateByte then 0xc6 else 0x80 + OperandCode(source)) + AluCode(alu)
    case Return(condition) => (match condition case None => 0xc9 case Some(c) => 0xc0 + ConditionCode(c))
    case HighImmediateLoad(direction) => if direction == FromA then 0xe0 else 0xf0
    case AddSpOffset => 0xe8
    case LoadHlSpOffset => 0xf8
    case Pop(stack) => 0xc1 + StackCode(stack)
    case ReturnFromInterrupt => 0xd9
    case JumpHl => 0xe9
    case LoadSpHl => 0xf9
    case Jump(condition) => (match condition case None => 0xc3 case Some(c) => 0xc2 + ConditionCode(c))
    case HighCLoad(direction) => if direction == FromA then 0xe2 else 0xf2
    case AbsoluteLoad(direction) => if direction == FromA then 0xea else 0xfa
    case PrefixCb => 0xcb
    case DisableInterrupts => 0xf3
    case EnableInterrupts => 0xfb
    case Call(condition) => (match condition case None => 0xcd case Some(c) => 0xc4 + ConditionCode(c))
    case Push(stack) => 0xc5 + StackCode(stack)
    case Restart(vector) => 0xc7 + vector
    case Cb(cb, target) => CbCode(cb) + OperandCode(target)
  }

  // ----- size and time -----

  /** Immediate bytes an operation carries. */
  function ImmediateBytes(op: Operation): int {
    match op
    case StoreSpAbsolute | Load16Immediate(_) | Jump(_) | Call(_) | AbsoluteLoad(_) => 2
    case Stop | RelativeJump(_) | Load8Immediate(_) | HighImmediateLoad(_) | AddSpOffset | LoadHlSpOffset => 1
    case Alu8(_, source) => if source == ImmediateByte then 1 else 0
    case _ => 0
  }

  /** M-cycles in which the CPU leaves the bus alone. */
  function InternalCycles(op: Operation, branch: bool): int {
    match op
    case AddSpOffset => 2
    case AddHl(_) | Increment16(_) | Decrement16(_) | LoadHlSpOffset | LoadSpHl => 1
    case Push(_) | Restart(_) | ReturnFromInterrupt => 1
    case RelativeJump(condition) => if condition.None? || branch then 1 else 0
    case Jump(condition) => if condition.None? || branch then 1 else 0
    case Call(condition) => if condition.None? || branch then 1 else 0
    case Return(condition) => if condition.Some? && branch then 2 else 1
    case _ => 0
  }

  /** A row of the table is the operation of its byte, as long and as slow as its accesses and internal cycles make
      it. */
  predicate Pinned(d: Decoded, byte: int) {
    && Encode(d.op) == byte && !d.prefixed && d.length == 1 + ImmediateBytes(d.op)
    && forall branch :: d.MCycles(branch) ==
         if d.op == Stop then 1 else BusPattern(d).Total(branch) + InternalCycles(d.op, branch)
  }

  lemma FieldsBack(c: int)
    requires 0 <= c < 8
    ensures OperandCode(OperandOf(c)) == c && OperandOf(c) != ImmediateByte && (OperandOf(c) == AtHL <==> c == 6)
    ensures AluCode(AluOf(c)) == 8 * c && CbCode(RotateOf(c)) == 8 * c
    ensures c < 4 ==> PairCode(PairOf(c)) == 16 * c && StackCode(StackPairOf(c)) == 16 * c
    ensures c < 4 ==> ConditionCode(ConditionOf(c)) == 8 * c
  {
  }

  lemma ZeroLow(y: int, z: int)
    requires 0 <= y < 8 && 0 <= z < 2
    ensures Pinned(BlockZero(y, z), 8 * y + z)
  {
    hide PairOf, ConditionOf, PairCode, ConditionCode;
    if y >= 4 { FieldsBack(y - 4); }
    FieldsBack(y / 2);
  }

  lemma ZeroMiddle(y: int, z: int)
    requires 0 <= y < 8 && 2 <= z < 4
    ensures Pinned(BlockZero(y, z), 8 * y + z)
  {
    hide PairOf, PairCode;
    FieldsBack(y / 2);
  }

  lemma ZeroHigh(y: int, z: int)
    requires 0 <= y < 8 && 4 <= z < 7
    ensures Pinned(BlockZero(y, z), 8 * y + z)
  {
    hide OperandOf, OperandCode;
    FieldsBack(y);
  }

  lemma ZeroLast(y: int)
    requires 0 <= y < 8
    ensures Pinned(BlockZero(y, 7), 8 * y + 7)
  {
  }

  lemma OneBlock(y: int, z: int)
    requires 0 <= y < 8 && 0 <= z < 8
    ensures Pinned(BlockOne(y, z), 0x40 + 8 * y + z)
  {
    hide OperandOf, OperandCode;
    FieldsBack(y);
    FieldsBack(z);
  }

  lemma TwoBlock(y: int, z: int)
    requires 0 <= y < 8 && 0 <= z < 8
    ensures Pinned(BlockTwo(y, z), 0x80 + 8 * y + z)
  {
    hide OperandOf, OperandCode, AluOf, AluCode;
    FieldsBack(y);
    FieldsBack(z);
  }

  lemma ThreeReturns(y: int)
    requires 0 <= y < 8
    ensures Pinned(BlockThree(y, 0), 0xc0 + 8 * y)
  {
    hide ConditionOf, ConditionCode, StackPairOf, StackCode, AluCode, OperandCode, CbCode, ViaCode, PairCode;
    FieldsBack(y);
  }

  lemma ThreePops(y: int)
    requires 0 <= y < 8
    ensures Pinned(BlockThree(y, 1), 0xc1 + 8 * y)
  {
    hide ConditionOf, ConditionCode, StackPairOf, StackCode;
    FieldsBack(y / 2);
  }

  lemma ThreeJumps(y: int)
    requires 0 <= y < 8
    ensures Pinned(BlockThree(y, 2), 0xc2 + 8 * y)
  {
    hide ConditionOf, ConditionCode;
    FieldsBack(y);
  }

  lemma ThreeControl(y: int)
    requires y == 0 || y == 1 || y == 6 || y == 7
    ensures Pinned(BlockThree(y, 3), 0xc3 + 8 * y)
  {
    hide ConditionOf, ConditionCode, StackPairOf, StackCode, AluOf, AluCode, OperandCode, CbCode, ViaCode, PairCode;
  }

  lemma ThreeCalls(y: int)
    requires 0 <= y < 4
    ensures Pinned(BlockThree(y, 4), 0xc4 + 8 * y)
  {
    hide ConditionOf, ConditionCode;
    FieldsBack(y);
  }

  lemma ThreePushes(y: int)
    requires 0 <= y < 8 && (y % 2 == 1 ==> y == 1)
    ensures Pinned(BlockThree(y, 5), 0xc5 + 8 * y)
  {
    hide StackPairOf, StackCode;
    FieldsBack(y / 2);
  }

  lemma ThreeAlu(y: int, z: int)
    requires 0 <= y < 8 && 6 <= z < 8
    ensures Pinned(BlockThree(y, z), 0xc0 + 8 * y + z)
  {
    hide AluOf, AluCode;
    FieldsBack(y);
  }

  /** Which second halves of the last block are defined. */
  lemma DefinedBytes(y: int, z: int)
    requires 0 <= y < 8 && 0 <= z < 8 && !Undefined(0xc0 + 8 * y + z)
    ensures z == 3 ==> y == 0 || y == 1 || y == 6 || y == 7
    ensures z == 4 ==> y < 4
    ensures z == 5 && y % 2 == 1 ==> y == 1
  {
  }

  lemma ThreeBlock(y: int, z: int)
    requires 0 <= y < 8 && 0 <= z < 8 && !Undefined(0xc0 + 8 * y + z)
    ensures Pinned(BlockThree(y, z), 0xc0 + 8 * y + z)
  {
    hide BlockThree, Pinned, Undefined;
    DefinedBytes(y, z);
    match z
    case 0 => ThreeReturns(y);
    case 1 => ThreePops(y);
    case 2 => ThreeJumps(y);
    case 3 => ThreeControl(y);
    case 4 => ThreeCalls(y);
    case 5 => ThreePushes(y);
    case _ => ThreeAlu(y, z);
  }

  /** Every defined first byte decodes to the operation the assembler gives that byte, with its length and M-cycles. */
  lemma PrimaryRoundTrip(byte: int)
    requires 0 <= byte < 256
    ensures DecodePrimary(byte).None? <==> Undefined(byte)
    ensures DecodePrimary(byte).Some? ==> Pinned(DecodePrimary(byte).value, byte)
  {
    hide BlockZero, BlockOne, BlockTwo, BlockThree, Pinned;
    FieldRanges(byte);
    var x, y, z := byte / 64, byte / 8 % 8, byte % 8;
    if x == 0 {
      if z < 2 { ZeroLow(y, z); } else if z < 4 { ZeroMiddle(y, z); } else if z < 7 { ZeroHigh(y, z); }
        else { ZeroLast(y); }
    } else if x == 1 { OneBlock(y, z); }
    else if x == 2 { TwoBlock(y, z); }
    else if !Undefined(byte) { ThreeBlock(y, z); }
  }

  /** The same for second bytes after the CB prefix. */
  lemma CbRoundTrip(byte: int)
    requires 0 <= byte < 256
    ensures
      var d := DecodeCb(byte);
      && Encode(d.op) == byte && d.prefixed && d.length == 2
      && forall branch :: d.MCycles(branch) == BusPattern(d).Total(branch)
  {
    hide OperandOf, OperandCode, RotateOf;
    FieldRanges(byte);
    FieldsBack(byte % 8);
    FieldsBack(byte / 8 % 8);
    RotatesOnly(byte / 8 % 8);
  }

  lemma RotatesOnly(c: int)
    requires 0 <= c < 8
    ensures !RotateOf(c).TestBit? && !RotateOf(c).ResetBit? && !RotateOf(c).SetBit?
  {
  }

  /** So different bytes are different instructions. */
  lemma DecodeInjective(a: int, b: int)
    requires 0 <= a < 256 && 0 <= b < 256
    ensures DecodePrimary(a).Some? && DecodePrimary(a) == DecodePrimary(b) ==> a == b
    ensures DecodeCb(a) == DecodeCb(b) ==> a == b
  {
    hide DecodePrimary, DecodeCb, Pinned, Encode;
    PrimaryRoundTrip(a);
    PrimaryRoundTrip(b);
    CbRoundTrip(a);
    CbRoundTrip(b);
    if DecodePrimary(a).Some? && DecodePrimary(a) == DecodePrimary(b) { SamePinned(DecodePrimary(a).value, a, b); }
  }

  lemma SamePinned(d: Decoded, a: int, b: int)
    requires Pinned(d, a) && Pinned(d, b)
    ensures a == b
  {
  }
}
