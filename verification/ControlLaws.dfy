/** What the control instructions do: stack, calls and returns, jumps and conditions, interrupts and HALT. */
module ControlLaws {

  import opened Wrappers
  import opened Modulus
  import opened Devices
  import opened Bus
  import opened BusLaws
  import opened Decimal
  import opened Execution
  import opened StepFacts
  import opened MemoryLaws
  import opened AluLaws
  import Assembler
  import Isa
  import Mmio

  // ----- the stack -----

  /** The flag byte holds Z, N, H and C in its high four bits, and comes back from them. */
  lemma FlagBytes(f: Flags, v: Octet)
    ensures FlagsOf(FlagByte(f)) == f && FlagByte(f) % 16 == 0
    ensures FlagByte(FlagsOf(v)) == v / 16 * 16
    ensures (FlagByte(f) >= 128 <==> f.zero) && (FlagByte(f) / 16 % 2 == 1 <==> f.carry)
  {
    FlagsBack(f);
    FlagsMasked(v);
  }

  lemma FlagsBack(f: Flags)
    ensures FlagsOf(FlagByte(f)) == f && FlagByte(f) % 16 == 0
    ensures (FlagByte(f) >= 128 <==> f.zero) && (FlagByte(f) / 16 % 2 == 1 <==> f.carry)
  {
  }

  lemma FlagsMasked(v: Octet)
    ensures FlagByte(FlagsOf(v)) == v / 16 * 16
  {
    var h := v / 16;
    assert v / 128 == h / 8 && v / 64 == h / 4 && v / 32 == h / 2;
    NibbleBits(h);
    NibbleFlags(v, h / 8 % 2, h / 4 % 2, h / 2 % 2, h % 2);
  }

  lemma NibbleFlags(v: Octet, z: int, n: int, h: int, c: int)
    requires v / 128 % 2 == z && v / 64 % 2 == n && v / 32 % 2 == h && v / 16 % 2 == c
    requires 0 <= z <= 1 && 0 <= n <= 1 && 0 <= h <= 1 && 0 <= c <= 1
    ensures FlagByte(FlagsOf(v)) == 128 * z + 64 * n + 32 * h + 16 * c
  {
  }

  lemma NibbleBits(h: int)
    requires 0 <= h < 16
    ensures h == h % 2 + 2 * (h / 2 % 2) + 4 * (h / 4 % 2) + 8 * (h / 8 % 2)
  {
  }

  /** A stack pair popped is the pair pushed; into AF the low four bits are lost. */
  lemma StackPairs(c: Core, s: Isa.StackPair, v: Address)
    ensures StackValue(SetStackPair(c, s, v), s) == if s == Isa.PairAF then v / 16 * 16 else v
    ensures SetStackPair(c, s, StackValue(c, s)) == c
  {
    hide FlagByte, FlagsOf;
    FlagBytes(c.flags, v % 256);
    assert v == 256 * (v / 256) + v % 256;
    assert v / 16 * 16 == 256 * (v / 256) + v % 256 / 16 * 16 by {
      DivisionUnique(v, 16, 16 * (v / 256) + v % 256 / 16, v % 16);
      assert v % 256 % 16 == v % 16 by { DivisionUnique(v, 16, 16 * (v / 256) + v % 256 / 16, v % 256 % 16); }
    }
  }

  /** `z` continues after a push from `x`: stack pointer and pushed word are those the push left. */
  predicate KeptStack(y: Vm, z: Vm) {
    && z.core.sp == y.core.sp && Held(z, y.core.sp) == Held(y, y.core.sp)
    && Held(z, Wrap16(y.core.sp + 1)) == Held(y, Wrap16(y.core.sp + 1))
  }

  predicate StackReady(x: Exec) { Writable(x.vm, Wrap16(x.vm.core.sp - 2)) }

  /** POP after PUSH restores the pair and the stack pointer, whatever ran in between and left the stack as it was. */
  lemma PopRestores(auth: Authority, x: Exec, s: Isa.StackPair, z: Exec)
    requires StackReady(x) && Execute(auth, x, Isa.Push(s), []).Ok?
    requires KeptStack(Execute(auth, x, Isa.Push(s), []).value.exec.vm, z.vm) && TruthfulTo(z, 2)
    requires Execute(auth, z, Isa.Pop(s), []).Ok?
    ensures
      var n := Execute(auth, z, Isa.Pop(s), []).value.exec.vm.core;
      && StackValue(n, s) == StackValue(x.vm.core, s) && n.sp == x.vm.core.sp
      && n == SetStackPair(z.vm.core.(sp := n.sp), s, StackValue(x.vm.core, s))
  {
    hide PushWord, PopWord, Held, SetStackPair, StackValue, TruthfulTo, Writable, Execute;
    StackRuns(auth, x, s);
    StackRuns(auth, z, s);
    var v := StackValue(x.vm.core, s);
    PopUndoesPush(auth, x, v, z);
    StackPairs(z.vm.core.(sp := x.vm.core.sp), s, v);
    PushedValue(x.vm.core, s);
    PairKeepsSp(z.vm.core.(sp := x.vm.core.sp), s, v);
  }

  lemma StackRuns(auth: Authority, x: Exec, s: Isa.StackPair)
    ensures Execute(auth, x, Isa.Push(s), []).Ok? <==> PushWord(auth, x, StackValue(x.vm.core, s)).Ok?
    ensures Execute(auth, x, Isa.Push(s), []).Ok? ==>
              Execute(auth, x, Isa.Push(s), []).value == Got(PushWord(auth, x, StackValue(x.vm.core, s)).value, false)
    ensures Execute(auth, x, Isa.Pop(s), []).Ok? <==> PopWord(auth, x).Ok?
    ensures Execute(auth, x, Isa.Pop(s), []).Ok? ==>
              var g := PopWord(auth, x).value;
              Execute(auth, x, Isa.Pop(s), []).value
              == Got(WithCore(g.exec, SetStackPair(g.exec.vm.core, s, g.value)), false)
  {
    hide PushWord, PopWord, SetStackPair, StackValue;
  }

  lemma PairKeepsSp(c: Core, s: Isa.StackPair, v: Address)
    ensures SetStackPair(c, s, v).sp == c.sp
  {
    hide FlagsOf;
  }

  lemma PushedValue(c: Core, s: Isa.StackPair)
    ensures s == Isa.PairAF ==> StackValue(c, s) / 16 * 16 == StackValue(c, s)
  {
    hide FlagByte;
    FlagBytes(c.flags, 0);
    if s == Isa.PairAF {
      var f := FlagByte(c.flags);
      DivisionUnique(256 * c.regs.a + f, 16, 16 * c.regs.a + f / 16, 0);
    }
  }

  // ----- calls and returns -----

  /** CALL and RST leave the address after themselves on the stack and go to their target. */
  lemma CallPushes(auth: Authority, x: Exec, op: Isa.Operation, imm: seq<Octet>)
    requires StackReady(x) && Execute(auth, x, op, imm).Ok? && Calls(x.vm.core, op)
    ensures
      var y, low: Address := Execute(auth, x, op, imm).value.exec.vm, Wrap16(x.vm.core.sp - 2);
      && y.core.sp == low && HasWord(y, low) && WordAt(y, low) == x.vm.core.pc
      && y.core.pc == (if op.Restart? then Wrap16(op.vector) else ImmediateWord(imm).value)
      && y.core == x.vm.core.(pc := y.core.pc, sp := low)
    ensures Execute(auth, x, op, imm).value.value
  {
    hide PushWord, Held, Writable, Calls, Execute;
    CallRuns(auth, x, op, imm);
    PushHeld(auth, x, x.vm.core.pc, 0);
    SameBytes(PushWord(auth, x, x.vm.core.pc).value.vm, Execute(auth, x, op, imm).value.exec.vm);
  }

  /** A call that is taken, or a restart. */
  predicate Calls(c: Core, op: Isa.Operation) { op.Restart? || (op.Call? && Holds(c, op.condition)) }

  /** A return that is taken. */
  predicate Returns(c: Core, op: Isa.Operation) { op.ReturnFromInterrupt? || (op.Return? && Holds(c, op.condition)) }

  lemma CallRuns(auth: Authority, x: Exec, op: Isa.Operation, imm: seq<Octet>)
    requires Execute(auth, x, op, imm).Ok? && Calls(x.vm.core, op)
    ensures PushWord(auth, x, x.vm.core.pc).Ok? && (op.Call? ==> ImmediateWord(imm).Ok?)
    ensures
      var y := PushWord(auth, x, x.vm.core.pc).value;
      Execute(auth, x, op, imm).value
      == Got(WithCore(y, y.vm.core.(pc := if op.Restart? then Wrap16(op.vector) else ImmediateWord(imm).value)), true)
  {
    hide PushWord, PopWord, Holds;
  }

  lemma ReturnRuns(auth: Authority, x: Exec, op: Isa.Operation)
    requires Execute(auth, x, op, []).Ok? && Returns(x.vm.core, op)
    ensures PopWord(auth, x).Ok?
    ensures
      var g := PopWord(auth, x).value;
      var c := g.exec.vm.core.(pc := g.value);
      Execute(auth, x, op, []).value
      == Got(WithCore(g.exec, if op.ReturnFromInterrupt? then c.(ime := Enabled) else c), true)
  {
    hide PushWord, PopWord, Holds;
  }

  /** A return after a call resumes behind the call with its stack pointer; RETI enables interrupts as well. */
  lemma ReturnUndoesCall(auth: Authority, x: Exec, call: Isa.Operation, imm: seq<Octet>, z: Exec, back: Isa.Operation)
    requires StackReady(x) && Execute(auth, x, call, imm).Ok? && Calls(x.vm.core, call)
    requires KeptStack(Execute(auth, x, call, imm).value.exec.vm, z.vm) && TruthfulTo(z, 2)
    requires Execute(auth, z, back, []).Ok? && Returns(z.vm.core, back)
    ensures
      var n := Execute(auth, z, back, []).value.exec.vm.core;
      && n.pc == x.vm.core.pc && n.sp == x.vm.core.sp
      && n == z.vm.core.(pc := n.pc, sp := n.sp, ime := if back.ReturnFromInterrupt? then Enabled else z.vm.core.ime)
  {
    hide PushWord, PopWord, Held, Writable, Calls, Returns, Execute, TruthfulTo;
    CallRuns(auth, x, call, imm);
    ReturnRuns(auth, z, back);
    var y := PushWord(auth, x, x.vm.core.pc).value;
    SameBytes(y.vm, Execute(auth, x, call, imm).value.exec.vm);
    PopUndoesPush(auth, x, x.vm.core.pc, z);
  }

  // ----- interrupt service -----

  /** Serving an interrupt leaves the interrupted address on the stack, disables interrupts and goes to the vector. */
  lemma DispatchPushes(auth: Authority, x: Exec, i: Interrupt)
    requires StackReady(x) && DispatchInterrupt(auth, x, i).Ok?
    ensures
      var y, low: Address := DispatchInterrupt(auth, x, i).value.vm, Wrap16(x.vm.core.sp - 2);
      && HasWord(y, low) && WordAt(y, low) == x.vm.core.pc
      && y.core
           == x.vm.core.(run := Running, ime := Disabled, pc := i.Vector(), sp := low, mCycles := x.vm.core.mCycles + 5)
  {
    hide PushWord, Held, Writable, AddTiming;
    var s := Served(x, i);
    SameBytes(x.vm, s.vm);
    SameReady(x, s);
    PushHeld(auth, s, x.vm.core.pc, 0);
    var p := PushWord(auth, s, x.vm.core.pc).value;
    var aimed := WithCore(p, p.vm.core.(pc := i.Vector()));
    Ticked(aimed, 5, p.vm.device.dma.active);
    SameBytes(p.vm, DispatchInterrupt(auth, x, i).value.vm);
  }

  function Served(x: Exec, i: Interrupt): Exec {
    x.(vm := x.vm.(core := x.vm.core.(run := Running, ime := Disabled),
                   device := x.vm.device.(request := Mmio.AcknowledgeLine(x.vm.device.request, i))))
  }

  lemma SameReady(x: Exec, y: Exec)
    requires StackReady(x) && y.vm.profile == x.vm.profile && y.vm.mapper == x.vm.mapper && y.vm.core.sp == x.vm.core.sp
    ensures StackReady(y)
  {
    hide CellOf;
  }

  lemma Ticked(x: Exec, n: nat, active: bool)
    requires AddTiming(x, n, active).Ok?
    ensures
      var y := AddTiming(x, n, active).value.vm;
      && y.core == x.vm.core.(mCycles := x.vm.core.mCycles + n) && y == x.vm.(core := y.core, device := y.device)
  {
    hide Device.AdvanceM;
  }

  /** RETI from a handler that left the stack resumes at the interrupted address, with interrupts on again. */
  lemma HandlerReturns(auth: Authority, x: Exec, i: Interrupt, z: Exec)
    requires StackReady(x) && DispatchInterrupt(auth, x, i).Ok?
    requires KeptStack(DispatchInterrupt(auth, x, i).value.vm, z.vm) && TruthfulTo(z, 2)
    requires Execute(auth, z, Isa.ReturnFromInterrupt, []).Ok?
    ensures
      var n := Execute(auth, z, Isa.ReturnFromInterrupt, []).value.exec.vm.core;
      n == z.vm.core.(pc := x.vm.core.pc, sp := x.vm.core.sp, ime := Enabled)
  {
    hide PopWord, Held, Writable, Execute, TruthfulTo, DispatchInterrupt;
    DispatchPushes(auth, x, i);
    ReturnRuns(auth, z, Isa.ReturnFromInterrupt);
    PopHeld(auth, z);
    Neighbours(x.vm.core.sp);
  }

  // ----- conditions and jumps -----

  function ConditionOf(op: Isa.Operation): Option<Isa.Condition> {
    match op
    case RelativeJump(k) => k
    case Jump(k) => k
    case Call(k) => k
    case Return(k) => k
    case _ => None
  }

  /** Every conditional byte tests carry when bit four is set and zero otherwise, for the value of bit three. */
  lemma ConditionBits(byte: int, c: Core)
    requires 0 <= byte < 256 && Isa.DecodePrimary(byte).Some? && ConditionOf(Isa.DecodePrimary(byte).value.op).Some?
    ensures Holds(c, ConditionOf(Isa.DecodePrimary(byte).value.op))
            <==> (if byte / 16 % 2 == 1 then c.flags.carry else c.flags.zero) == (byte / 8 % 2 == 1)
  {
    hide Isa.DecodePrimary, Assembler.Encode, ConditionOf, Holds;
    var op := Isa.DecodePrimary(byte).value.op;
    var k := ConditionOf(op).value;
    Assembler.PrimaryRoundTrip(byte);
    ConditionalBytes(op, k);
    ConditionTested(byte, k, c);
  }

  lemma ConditionalBytes(op: Isa.Operation, k: Isa.Condition)
    requires ConditionOf(op) == Some(k)
    ensures Assembler.Encode(op) in {0x20, 0xc0, 0xc2, 0xc4, 0x20 + 8, 0xc0 + 8, 0xc2 + 8, 0xc4 + 8, 0x30, 0xd0, 0xd2,
                                     0xd4,
                                     0x38, 0xd8, 0xda, 0xdc}
    ensures Assembler.Encode(op) / 8 % 4 == Assembler.ConditionCode(k) / 8
  {
  }

  lemma ConditionTested(byte: int, k: Isa.Condition, c: Core)
    requires 0 <= byte < 256 && byte / 8 % 4 == Assembler.ConditionCode(k) / 8
    ensures Holds(c, Some(k)) <==> (if byte / 16 % 2 == 1 then c.flags.carry else c.flags.zero) == (byte / 8 % 2 == 1)
  {
    assert byte / 16 == byte / 8 / 2;
  }

  /** A relative jump goes forward or back by its signed byte from behind itself, exactly when its condition holds. */
  lemma RelativeJumps(auth: Authority, x: Exec, k: Option<Isa.Condition>, v: Octet)
    ensures
      var r := Execute(auth, x, Isa.RelativeJump(k), [v]);
      && r.Ok? && (r.value.value <==> Holds(x.vm.core, k))
      && var n := r.value.exec.vm.core;
         && n == x.vm.core.(pc := n.pc)
         && (r.value.value ==> Distance(n.pc - x.vm.core.pc, v))
         && (!r.value.value ==> n.pc == x.vm.core.pc)
  {
    hide Holds, Signed, ReadData, WriteData;
    JumpDistance(x.vm.core.pc, v);
  }

  /** `d` is, modulo 2^16, the distance that the offset byte stands for as a two's complement number. */
  predicate Distance(d: int, v: int) { (d - (if v < 128 then v else v - 256)) % 65536 == 0 }

  lemma JumpDistance(pc: Address, v: Octet)
    ensures Distance(Wrap16(pc + Signed(v)) - pc, v)
  {
    WrapsTo(pc + Signed(v));
  }

  /** JP goes to its immediate word exactly when its condition holds, JP (HL) to HL. */
  lemma Jumps(auth: Authority, x: Exec, k: Option<Isa.Condition>, low: Octet, high: Octet)
    ensures
      var r, j := Execute(auth, x, Isa.Jump(k), [low, high]), Execute(auth, x, Isa.JumpHl, []);
      && r.Ok? && (r.value.value <==> Holds(x.vm.core, k)) && j.Ok?
      && r.value.exec.vm.core == (if r.value.value then x.vm.core.(pc := 256 * high + low) else x.vm.core)
      && j.value.exec.vm.core == x.vm.core.(pc := 256 * x.vm.core.regs.h + x.vm.core.regs.l)
  {
    hide Holds, ReadData, WriteData;
  }
}
