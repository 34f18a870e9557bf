/** What loads, fetches, stores, pushes and pops do to bytes and words. */
module MemoryLaws {

  import opened Wrappers
  import opened Modulus
  import opened Devices
  import opened Bus
  import opened BusLaws
  import opened Execution
  import Isa
  import Mmio

  /** A supplied byte is the one its address holds. */
  predicate Truthful(v: Vm, w: Witness) {
    match w
    case RomByte(r) => r.value == At(v.rom, r.physical)
    case MemoryByte(r) => r.value == At(v.memory, r.physical)
    case _ => true
  }

  /** The first `n` supplied bytes are. */
  predicate TruthfulTo(x: Exec, n: nat) {
    n <= |x.witnesses| && forall k :: 0 <= k < n ==> Truthful(x.vm, x.witnesses[k])
  }

  /** The byte a load from ROM or memory sees. */
  function Held(v: Vm, a: int): Option<int> { VisibleByte(Shadow(v), a) }

  /** The byte an event reports to the instruction. */
  function EventByte(e: Event): Option<int> {
    match e
    case RomFetch(_, rom) => Some(rom.value)
    case MemoryFetch(_, cell) => Some(cell.value)
    case OpenBusRead(_) => Some(0xff)
    case RegisterRead(_, value) => Some(value)
    case JoypadRead(_, _, _, value) => Some(value)
    case _ => None
  }

  // ----- single bytes -----

  /** A load returns the byte its one event reports, which for ROM and memory is the witnessed byte, and the held one
      when
      the witness is truthful; it changes nothing there. */
  lemma ReadValue(auth: Authority, x: Exec, a: Address)
    requires ReadData(auth, x, a).Ok?
    ensures
      var y := ReadData(auth, x, a).value;
      && |y.exec.events| == |x.events| + 1 && y.exec.events[..|x.events|] == x.events
      && EventByte(y.exec.events[|x.events|]) == Some(y.value)
      && (Held(x.vm, a).Some? ==>
            && x.witnesses != [] && y.exec.vm == x.vm && y.exec.witnesses == x.witnesses[1..]
            && (Truthful(x.vm, x.witnesses[0]) ==> Held(x.vm, a) == Some(y.value)))
  {
    hide Blocked, Mapper.External, Mapper.MapRom, RegisterByte, Mmio.Implemented, Mmio.SampleJoypad, Mmio.VisibleJoypad;
  }

  /** A CPU load and a DMA read of the same address, with truthful witnesses, give the same byte. */
  lemma ReadIsSource(auth: Authority, x: Exec, a: Address)
    requires ReadData(auth, x, a).Ok? && Held(x.vm, a).Some? && a <= 0xdf9f && TruthfulTo(x, 1)
    ensures SourceByte(Shadow(x.vm), a) == Ok(ReadData(auth, x, a).value.value)
  {
    hide ReadData, VisibleByte, SourceByte;
    ReadValue(auth, x, a);
    SourceIsVisible(Shadow(x.vm), a);
  }

  /** `y` took one witness for one event, which reports the byte; the machine is unchanged. */
  predicate TookOne(x: Exec, y: Exec, value: Octet) {
    && |y.events| == |x.events| + 1 && y.events[..|x.events|] == x.events
    && EventByte(y.events[|x.events|]) == Some(value)
    && x.witnesses != [] && y.vm == x.vm && y.witnesses == x.witnesses[1..]
  }

  lemma RomFetched(auth: Authority, x: Exec, a: Address, role: Role)
    requires FetchRom(auth, x, a, role).Ok?
    ensures
      var y := FetchRom(auth, x, a, role).value;
      TookOne(x, y.exec, y.value)
      && (Truthful(x.vm, x.witnesses[0]) ==> At(x.vm.rom, x.vm.mapper.MapRom(a)) == y.value)
  {
    hide Mapper.MapRom;
  }

  lemma CellFetched(auth: Authority, x: Exec, a: Address, physical: int, role: Role)
    requires FetchCell(auth, x, a, physical, role).Ok?
    ensures
      var y := FetchCell(auth, x, a, physical, role).value;
      TookOne(x, y.exec, y.value) && (Truthful(x.vm, x.witnesses[0]) ==> At(x.vm.memory, physical) == y.value)
  {
  }

  /** An instruction fetch returns the byte its event reports, and the one `FetchAt` finds when the witness is
      truthful. */
  lemma FetchValue(auth: Authority, x: Exec, a: Address, role: Role)
    requires FetchInstruction(auth, x, a, role).Ok?
    ensures
      var y := FetchInstruction(auth, x, a, role).value;
      && TookOne(x, y.exec, y.value)
      && (Truthful(x.vm, x.witnesses[0]) ==> FetchAt(Shadow(x.vm), a) == Ok(y.value))
  {
    hide FetchRom, FetchCell, Blocked, Mapper.MapRom, Truthful, TookOne;
    if OwnerOf(a) == RomArea { RomFetched(auth, x, a, role); } else { CellFetched(auth, x, a, a, role); }
  }

  /** A store to memory replaces the byte of its cell and nothing else of the machine. */
  lemma WriteValue(auth: Authority, x: Exec, a: Address, v: Octet)
    requires WriteData(auth, x, a, v).Ok? && CellOf(x.vm.profile, x.vm.mapper, a).Some?
    ensures
      var y, cell := WriteData(auth, x, a, v).value, CellOf(x.vm.profile, x.vm.mapper, a).value;
      y.vm == x.vm.(root := y.vm.root, memory := x.vm.memory[cell := v])
  {
    hide Blocked, Mapper.External, Mapper.Control, Mmio.WriteMmio, RegisterByte;
  }

  /** Afterwards that address holds the byte, and every other what it held. */
  lemma WriteHeld(auth: Authority, x: Exec, a: Address, v: Octet, b: int)
    requires WriteData(auth, x, a, v).Ok? && CellOf(x.vm.profile, x.vm.mapper, a).Some?
    requires x.vm.mapper.Valid(x.vm.profile) && 0 <= b < 0x10000
    ensures Held(WriteData(auth, x, a, v).value.vm, b) == if b == a then Some(v) else Held(x.vm, b)
  {
    hide WriteData, Mapper.External, Mapper.MapRom, OwnerOf, ExternalArea;
    WriteValue(auth, x, a, v);
    Stored(x.vm, a, v, b);
  }

  lemma Stored(m: Vm, a: Address, v: Octet, b: int)
    requires CellOf(m.profile, m.mapper, a).Some? && m.mapper.Valid(m.profile) && 0 <= b < 0x10000
    ensures
      var n := m.(memory := m.memory[CellOf(m.profile, m.mapper, a).value := v]);
      Held(n, b) == if b == a then Some(v) else Held(m, b)
  {
    hide Mapper.External, Mapper.MapRom;
    if CellOf(m.profile, m.mapper, b).Some? { CellsApart(m.profile, m.mapper, m.mapper, a, b); }
  }

  // ----- words -----

  /** The two bytes at an address and the next, low byte first. */
  predicate HasWord(v: Vm, a: Address) { Held(v, a).Some? && Held(v, Wrap16(a + 1)).Some? }

  function WordAt(v: Vm, a: Address): int
    requires HasWord(v, a)
  {
    Held(v, a).value + 256 * Held(v, Wrap16(a + 1)).value
  }

  /** Both cells of a word can be stored to. */
  predicate Writable(v: Vm, a: Address) {
    && CellOf(v.profile, v.mapper, a).Some? && CellOf(v.profile, v.mapper, Wrap16(a + 1)).Some?
    && v.mapper.Valid(v.profile)
  }

  lemma Neighbours(a: Address)
    ensures Wrap16(Wrap16(a - 1) - 1) == Wrap16(a - 2) && Wrap16(Wrap16(a - 2) + 1) == Wrap16(a - 1)
    ensures Wrap16(Wrap16(a - 2) + 2) == a && Wrap16(a - 1) != Wrap16(a - 2) && Wrap16(a + 1) != a
  {
  }

  lemma SameBytes(v: Vm, w: Vm)
    requires w.profile == v.profile && w.mapper == v.mapper && w.rom == v.rom && w.memory == v.memory
    ensures forall a :: Held(w, a) == Held(v, a)
  {
  }

  /** A push leaves the word below the stack pointer, and every other byte as it was. */
  lemma PushHeld(auth: Authority, x: Exec, v: Address, b: Address)
    requires PushWord(auth, x, v).Ok? && Writable(x.vm, Wrap16(x.vm.core.sp - 2))
    ensures
      var y, low: Address := PushWord(auth, x, v).value, Wrap16(x.vm.core.sp - 2);
      && y.vm.core == x.vm.core.(sp := low) && HasWord(y.vm, low) && WordAt(y.vm, low) == v
      && y.vm == x.vm.(core := y.vm.core, root := y.vm.root, memory := y.vm.memory)
      && (b != low && b != Wrap16(low + 1) ==> Held(y.vm, b) == Held(x.vm, b))
  {
    hide WriteData, Held, CellOf;
    var sp: int := x.vm.core.sp;
    var high: Address, low: Address := Wrap16(sp - 1), Wrap16(sp - 2);
    Neighbours(sp);
    WriteValue(auth, x, high, v / 256);
    var y := WriteData(auth, x, high, v / 256).value;
    var y' := WithCore(y, y.vm.core.(sp := high));
    SameBytes(y.vm, y'.vm);
    WriteValue(auth, y', low, v % 256);
    var z := WriteData(auth, y', low, v % 256).value;
    var z' := WithCore(z, z.vm.core.(sp := low));
    SameBytes(z.vm, z'.vm);
    WriteHeld(auth, x, high, v / 256, high);
    WriteHeld(auth, x, high, v / 256, b);
    WriteHeld(auth, y', low, v % 256, high);
    WriteHeld(auth, y', low, v % 256, low);
    WriteHeld(auth, y', low, v % 256, b);
    assert v / 256 * 256 + v % 256 == v;
  }

  /** A pop returns the word at the stack pointer, and moves it up by two. */
  lemma PopHeld(auth: Authority, x: Exec)
    requires PopWord(auth, x).Ok? && HasWord(x.vm, x.vm.core.sp) && TruthfulTo(x, 2)
    ensures PopWord(auth, x).value.value == WordAt(x.vm, x.vm.core.sp)
    ensures PopWord(auth, x).value.exec.vm == x.vm.(core := x.vm.core.(sp := Wrap16(x.vm.core.sp + 2)))
  {
    hide ReadData, Held;
    var sp: int := x.vm.core.sp;
    ReadValue(auth, x, sp);
    var low := ReadData(auth, x, sp).value;
    ReadValue(auth, low.exec, Wrap16(sp + 1));
  }

  /** A pop undoes a push: whatever runs in between, if it brings the stack pointer back and leaves the two bytes,
      the pop
      returns the pushed word and the stack pointer of before. */
  lemma PopUndoesPush(auth: Authority, x: Exec, v: Address, z: Exec)
    requires PushWord(auth, x, v).Ok? && Writable(x.vm, Wrap16(x.vm.core.sp - 2))
    requires
      var y := PushWord(auth, x, v).value;
      && z.vm.core.sp == y.vm.core.sp && Held(z.vm, y.vm.core.sp) == Held(y.vm, y.vm.core.sp)
      && Held(z.vm, Wrap16(y.vm.core.sp + 1)) == Held(y.vm, Wrap16(y.vm.core.sp + 1))
    requires PopWord(auth, z).Ok? && TruthfulTo(z, 2)
    ensures PopWord(auth, z).value.value == v
    ensures PopWord(auth, z).value.exec.vm == z.vm.(core := z.vm.core.(sp := x.vm.core.sp))
  {
    hide PushWord, PopWord, Held;
    PushHeld(auth, x, v, 0);
    PopHeld(auth, z);
    Neighbours(x.vm.core.sp);
  }

  /** LD (nn),SP leaves SP at the address as a word. */
  lemma StoreSpHeld(auth: Authority, x: Exec, a: Address)
    requires StoreSp(auth, x, a).Ok? && Writable(x.vm, a)
    ensures HasWord(StoreSp(auth, x, a).value.vm, a) && WordAt(StoreSp(auth, x, a).value.vm, a) == x.vm.core.sp
  {
    hide WriteData, Held, CellOf;
    var low, high := x.vm.core.sp % 256, x.vm.core.sp / 256;
    Neighbours(a);
    WriteValue(auth, x, a, low);
    var y := WriteData(auth, x, a, low).value;
    WriteHeld(auth, x, a, low, a);
    WriteHeld(auth, y, Wrap16(a + 1), high, a);
    WriteHeld(auth, y, Wrap16(a + 1), high, Wrap16(a + 1));
  }

  /** Two immediate bytes are the word at the program counter, which moves past them. */
  lemma ImmediateHeld(auth: Authority, x: Exec)
    requires FetchImmediates(auth, x, 2).Ok? && TruthfulTo(x, 2)
    ensures
      var pc, g := x.vm.core.pc, FetchImmediates(auth, x, 2).value;
      && FetchAt(Shadow(x.vm), pc).Ok? && FetchAt(Shadow(x.vm), Wrap16(pc + 1)).Ok?
      && ImmediateWord(g.value)
         == Ok(FetchAt(Shadow(x.vm), pc).value + 256 * FetchAt(Shadow(x.vm), Wrap16(pc + 1)).value)
      && g.exec.vm == x.vm.(core := x.vm.core.(pc := Wrap16(pc + 2)))
  {
    hide FetchInstruction, FetchAt;
    var pc: int := x.vm.core.pc;
    FetchValue(auth, x, pc, ImmediateRole);
    var first := FetchAndAdvance(auth, x, ImmediateRole).value;
    FetchValue(auth, first.exec, Wrap16(pc + 1), ImmediateRole);
    OneImmediate(auth, first.exec);
    var second := FetchAndAdvance(auth, first.exec, ImmediateRole).value;
    SameFetch(x.vm, first.exec.vm);
    Neighbours(pc);
    NextTwo(pc);
  }

  lemma OneImmediate(auth: Authority, x: Exec)
    requires FetchImmediates(auth, x, 1).Ok?
    ensures FetchAndAdvance(auth, x, ImmediateRole).Ok?
    ensures
      var g := FetchAndAdvance(auth, x, ImmediateRole).value;
      FetchImmediates(auth, x, 1) == Ok(Got(g.exec, [g.value]))
  {
    hide FetchAndAdvance;
    var g := FetchAndAdvance(auth, x, ImmediateRole).value;
    assert FetchImmediates(auth, g.exec, 0) == Ok(Got(g.exec, []));
    assert [g.value] + [] == [g.value];
  }

  lemma SameFetch(v: Vm, w: Vm)
    requires Shadow(w) == Shadow(v)
    ensures forall a :: FetchAt(Shadow(w), a) == FetchAt(Shadow(v), a)
  {
  }

  lemma NextTwo(pc: Address)
    ensures Wrap16(Wrap16(pc + 1) + 1) == Wrap16(pc + 2)
  {
  }

  // ----- memory operands -----

  /** A byte written through (HL) is read back through (HL). */
  lemma OperandHeld(auth: Authority, x: Exec, v: Octet, z: Exec, imm: seq<Octet>)
    requires WriteOperand(auth, x, Isa.AtHL, v).Ok? && x.vm.mapper.Valid(x.vm.profile)
    requires CellOf(x.vm.profile, x.vm.mapper, Pair(x.vm.core, Isa.HL)).Some?
    requires Pair(z.vm.core, Isa.HL) == Pair(x.vm.core, Isa.HL) && ReadOperand(auth, z, Isa.AtHL, imm).Ok?
    requires TruthfulTo(z, 1)
    requires Held(z.vm, Pair(x.vm.core, Isa.HL))
             == Held(WriteOperand(auth, x, Isa.AtHL, v).value.vm, Pair(x.vm.core, Isa.HL))
    ensures ReadOperand(auth, z, Isa.AtHL, imm).value.value == v
  {
    hide WriteData, ReadData, Held, CellOf, Pair;
    var a := Pair(x.vm.core, Isa.HL);
    WriteHeld(auth, x, a, v, a);
    ReadValue(auth, z, a);
  }

  /** LD (nn),A then LD A,(nn) restores A. */
  lemma TransferHeld(auth: Authority, x: Exec, a: Address, z: Exec)
    requires TransferA(auth, x, a, Isa.FromA).Ok? && CellOf(x.vm.profile, x.vm.mapper, a).Some?
    requires x.vm.mapper.Valid(x.vm.profile) && TransferA(auth, z, a, Isa.IntoA).Ok? && TruthfulTo(z, 1)
    requires Held(z.vm, a) == Held(TransferA(auth, x, a, Isa.FromA).value.vm, a)
    ensures TransferA(auth, z, a, Isa.IntoA).value.vm.core == SetReg(z.vm.core, Isa.A, x.vm.core.regs.a)
  {
    hide WriteData, ReadData, Held, CellOf;
    WriteHeld(auth, x, a, x.vm.core.regs.a, a);
    ReadValue(auth, z, a);
  }
}
