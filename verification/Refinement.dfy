/** The witness-driven step refines the plain machine: a decoded instruction is the access list of its own events. */
module Refinement {

  import opened Wrappers
  import opened Devices
  import opened HaltSkips
  import opened Bus
  import opened BusLaws
  import opened Execution
  import opened StepFacts
  import opened MemoryLaws
  import DmaRun
  import Isa
  import Mmio
  import Steps

  function CpuOf(c: Core): Cpu { Cpu(c.run, c.ime, c.pc, c.sp) }

  /** The plain machine of an executor state: registers, roots and transcripts forgotten. */
  function Plain(v: Vm): Machine
    requires v.core.mCycles >= 0
  {
    Machine(v.profile, CpuOf(v.core), v.core.mCycles, v.device, v.mapper, v.rom, v.memory)
  }

  // ----- CPU accesses -----

  /** Bus accesses neither read nor move the CPU and the clock. */
  lemma {:induction false} PerformIgnores(m: Machine, accesses: seq<BusAccess>, cpu: Cpu, clock: nat)
    requires Perform(m, accesses).Ok?
    ensures Perform(m.(cpu := cpu, clock := clock), accesses)
            == Ok(Perform(m, accesses).value.(cpu := cpu, clock := clock))
    decreases |accesses|
  {
    hide Perform1;
    if accesses != [] {
      AccessIgnores(m, accesses[0], cpu, clock);
      PerformIgnores(Perform1(m, accesses[0]).value, accesses[1..], cpu, clock);
    }
  }

  lemma AccessIgnores(m: Machine, a: BusAccess, cpu: Cpu, clock: nat)
    requires Perform1(m, a).Ok?
    ensures Perform1(m.(cpu := cpu, clock := clock), a) == Ok(Perform1(m, a).value.(cpu := cpu, clock := clock))
  {
    hide Blocked, Mapper.External, Mapper.Control, Mmio.WriteMmio, Mmio.SampleJoypad, Mmio.Implemented;
  }

  lemma {:induction false} AccessesValid(events: seq<Event>)
    ensures forall k :: 0 <= k < |Accesses(events)| ==> Accesses(events)[k].Valid()
  {
    if events != [] { AccessesValid(events[..|events| - 1]); }
  }

  /** From a fresh step, the events' accesses lead the plain machine to the executor's state. */
  lemma MirrorsFromStart(x: Exec, y: Exec)
    requires Mirrors(x, y) && x.events == []
    ensures Perform(Shadow(x.vm), Accesses(y.events)) == Ok(Shadow(y.vm))
  {
    hide Shadow;
    assert Perform(Shadow(x.vm), Accesses(x.events)) == Ok(Shadow(x.vm));
  }

  lemma FetchThenExecute(x: Exec, f: Got<Fetched>, r: Got<bool>)
    requires FetchesAs(x, f) && ExecutesAs(f.exec, f.value.decoded.op, r)
    ensures Mirrors(x, r.exec) && r.exec.vm.core.mCycles == x.vm.core.mCycles
  {
    hide Isa.BusPattern, DeclaredLoads, DeclaredStores, Accesses, Perform, Shadow, Traced;
  }

  // ----- steps -----

  lemma TimingRefines(x: Exec, n: nat, active: bool)
    requires Execution.AddTiming(x, n, active).Ok? && x.vm.core.mCycles >= 0
    ensures
      var y := Execution.AddTiming(x, n, active).value;
      && y.vm.core.mCycles >= 0 && Steps.AddTiming(Plain(x.vm), n, active) == Ok(Plain(y.vm))
      && y.vm.core == x.vm.core.(mCycles := x.vm.core.mCycles + n) && y.events == x.events
  {
    hide Device.AdvanceM, Dma.Schedule;
  }

  lemma InstructionParts(auth: Authority, x: Exec) returns (before: Exec, n: nat)
    requires Execution.InstructionStep(auth, x).Ok? && x.events == []
    ensures Perform(Shadow(x.vm), Accesses(before.events)) == Ok(Shadow(before.vm)) && 1 <= n <= 6
    ensures before.vm.core.mCycles == x.vm.core.mCycles && Execution.AddTiming(before, n, x.vm.device.dma.active).Ok?
    ensures
      var y, z := Execution.AddTiming(before, n, x.vm.device.dma.active).value,
        Execution.InstructionStep(auth, x).value.exec;
      y.events == z.events && z.vm == y.vm.(core := z.vm.core) && z.vm.core.mCycles == y.vm.core.mCycles
  {
    hide FetchesAs, ExecutesAs, FetchWhole, Execute, Execution.AddTiming, Isa.Decodes, Mirrors, Perform, Accesses,
         PendingInterrupt;
    var root := Anchor(0, [], []);
    WholeFacts(auth, x, root);
    WholeDecodes(auth, x);
    var fetched := FetchWhole(auth, x).value;
    var d := fetched.value.decoded;
    NoSelfCopy(d);
    ExecuteFacts(auth, fetched.exec, d.op, fetched.value.imm, root);
    var got := Execute(auth, fetched.exec, d.op, fetched.value.imm).value;
    FetchThenExecute(x, fetched, got);
    MirrorsFromStart(x, got.exec);
    before, n := AfterExecute(x.vm, got.exec, d.op), d.MCycles(got.value);
    Timed(d, got.value);
  }

  lemma Timed(d: Isa.Decoded, branch: bool)
    requires Isa.Decodes(d)
    ensures 1 <= d.MCycles(branch) <= 6
  {
    hide Isa.Decodes;
    Isa.TableFits(d, branch);
  }

  lemma InstructionRefines(auth: Authority, x: Exec) returns (i: Steps.Instruction)
    requires Execution.InstructionStep(auth, x).Ok? && x.events == [] && x.vm.core.mCycles >= 0
    ensures
      var y := Execution.InstructionStep(auth, x).value.exec;
      && Steps.WellTimed(i) && i.accesses == Accesses(y.events) && i.after == CpuOf(y.vm.core)
      && y.vm.core.mCycles >= 0 && Steps.InstructionStep(Plain(x.vm), i) == Ok(Plain(y.vm))
  {
    hide Execution.InstructionStep, Execution.AddTiming, Steps.AddTiming, Perform, Accesses;
    var before, n := InstructionParts(auth, x);
    var y := Execution.InstructionStep(auth, x).value.exec;
    TimingRefines(before, n, x.vm.device.dma.active);
    i := Steps.Instruction(Accesses(y.events), n, CpuOf(y.vm.core));
    AccessesValid(y.events);
    PerformIgnores(Shadow(x.vm), i.accesses, CpuOf(x.vm.core), x.vm.core.mCycles);
    TimingIgnores(Plain(before.vm), n, x.vm.device.dma.active, i.after);
  }

  lemma TimingIgnores(m: Machine, n: nat, active: bool, cpu: Cpu)
    requires Steps.AddTiming(m, n, active).Ok?
    ensures Steps.AddTiming(m.(cpu := cpu), n, active) == Ok(Steps.AddTiming(m, n, active).value.(cpu := cpu))
  {
    hide Device.AdvanceM, Dma.Schedule;
  }

  lemma PushRefines(auth: Authority, x: Exec, v: Address)
    requires PushWord(auth, x, v).Ok?
    ensures
      var high: int, low: int := Wrap16(x.vm.core.sp - 1), Wrap16(x.vm.core.sp - 2);
      Perform(Shadow(x.vm), [Store(high, v / 256), Store(low, v % 256)]) == Ok(Shadow(PushWord(auth, x, v).value.vm))
    ensures PushWord(auth, x, v).value.vm.core == x.vm.core.(sp := Wrap16(x.vm.core.sp - 2))
  {
    hide WriteData, Perform, Perform1;
    var high: int, low: int := Wrap16(x.vm.core.sp - 1), Wrap16(x.vm.core.sp - 2);
    assert low == Wrap16(high - 1);
    WriteMirrors(auth, x, high, v / 256);
    var y := WriteData(auth, x, high, v / 256).value;
    WriteMirrors(auth, WithCore(y, y.vm.core.(sp := high)), low, v % 256);
    PerformTwo(Shadow(x.vm), Store(high, v / 256), Store(low, v % 256));
  }

  lemma PerformTwo(m: Machine, a: BusAccess, b: BusAccess)
    requires Perform1(m, a).Ok?
    ensures Perform(m, [a, b]) == Perform1(Perform1(m, a).value, b)
  {
    hide Perform1, Perform;
    assert [a] + [b] == [a, b];
    PerformSplit(m, [a], [b]);
    PerformOne(m, a);
    PerformOne(Perform1(m, a).value, b);
  }

  lemma DispatchRefines(auth: Authority, x: Exec, k: Interrupt)
    requires DispatchInterrupt(auth, x, k).Ok? && x.vm.core.mCycles >= 0
    ensures
      var y := DispatchInterrupt(auth, x, k).value;
      y.vm.core.mCycles >= 0 && Steps.DispatchStep(Plain(x.vm), k) == Ok(Plain(y.vm))
  {
    hide PushWord, Perform, Execution.AddTiming, Steps.AddTiming, Mmio.AcknowledgeLine;
    var c := x.vm.core;
    var device := x.vm.device.(request := Mmio.AcknowledgeLine(x.vm.device.request, k));
    var started := x.(vm := x.vm.(core := c.(run := Running, ime := Disabled), device := device));
    PushRefines(auth, started, c.pc);
    var pushed := PushWord(auth, started, c.pc).value;
    PerformIgnores(Shadow(started.vm), Steps.Pushes(Plain(x.vm)), CpuOf(c), c.mCycles);
    TimingRefines(WithCore(pushed, pushed.vm.core.(pc := k.Vector())), 5, pushed.vm.device.dma.active);
  }

  lemma EventRefines(auth: Authority, x: Exec, e: MachineEvent)
    requires Execution.EventStep(auth, x, e).Ok? && x.vm.core.mCycles >= 0
    ensures
      var y := Execution.EventStep(auth, x, e).value;
      y.vm.core.mCycles >= 0 && Steps.EventStep(Plain(x.vm), e) == Ok(Plain(y.vm))
  {
    hide DispatchInterrupt, Steps.DispatchStep, Execution.AddTiming, Steps.AddTiming, HaltIdle, QuietLong;
    match e
    case Dispatch(k) => DispatchRefines(auth, x, k);
    case Idle => TimingRefines(x, HaltIdle(x.vm.device), x.vm.device.dma.active);
    case _ =>
  }

  lemma SourceRefines(auth: Authority, x: Exec)
    requires
      var s := x.vm.device.dma.SourceAddress();
      s <= 0xdf9f && DmaSource(auth, x, s).Ok? && (x.witnesses != [] ==> Truthful(x.vm, x.witnesses[0]))
        && x.vm.core.mCycles >= 0
    ensures
      var s := x.vm.device.dma.SourceAddress();
      SourceByte(Plain(x.vm), s) == Ok(DmaSource(auth, x, s).value.value)
  {
    hide Mapper.External, Mapper.MapRom, Dma.SourceAddress;
  }

  lemma CopyRefines(auth: Authority, x: Exec)
    requires CopyDmaByte(auth, x).Ok? && (x.witnesses != [] ==> Truthful(x.vm, x.witnesses[0]))
    requires x.vm.core.mCycles >= 0
    ensures
      var y := CopyDmaByte(auth, x).value;
      y.vm.core.mCycles == x.vm.core.mCycles && CopyByte(Plain(x.vm)) == Ok(Plain(y.vm))
  {
    hide DmaSource, SourceByte, Dma.Complete, Dma.SourceAddress, Dma.DestinationAddress;
    SourceRefines(auth, x);
    DmaSourceFacts(auth, x, x.vm.device.dma.SourceAddress(), Anchor(0, [], []));
  }

  /** The roots of `v` open only to the bytes they commit to. */
  ghost predicate Binding(auth: Authority, v: Vm) {
    && auth.Merkle?
    && (forall r: Read :: auth.romOk(v.romRoot, r) ==> r.value == At(v.rom, r.physical))
    && (forall r: Read :: auth.cellOk(v.root, r) ==> r.value == At(v.memory, r.physical))
  }

  /** With binding roots an accepted DMA copy was supplied with the byte held. */
  lemma BindingIsTruthful(auth: Authority, v: Vm, witnesses: seq<Witness>)
    requires Binding(auth, v) && v.device.dma.owed != 0 && Execution.Step(auth, v, witnesses).Ok?
    ensures witnesses != [] && Truthful(v, witnesses[0])
  {
    hide Mapper.External, Mapper.MapRom, Dma.SourceAddress, Dma.DestinationAddress, TakeUpdate, OwnerOf, DmaPhysical,
         At;
    var x := Exec(v, witnesses, []);
    assert CopyDmaByte(auth, x).Ok?;
    assert DmaSource(auth, x, v.device.dma.SourceAddress()).Ok?;
  }

  /** An instruction runs in this step. */
  predicate Instructs(v: Vm) { v.device.dma.owed == 0 && Classify(v) == Ok(None) }

  /**
    * Every accepted step, with either authority, is the plain machine's step for a well-timed instruction; when one is
    * decoded, that instruction's accesses are those its events record. Only a DMA byte has to be the byte held.
    */
  lemma StepRefines(auth: Authority, v: Vm, witnesses: seq<Witness>) returns (i: Steps.Instruction)
    requires Execution.Step(auth, v, witnesses).Ok? && v.core.mCycles >= 0
    requires v.device.dma.owed != 0 && witnesses != [] ==> Truthful(v, witnesses[0])
    ensures
      var e := Execution.Step(auth, v, witnesses).value;
      && Steps.WellTimed(i) && e.vm.core.mCycles >= 0 && Steps.Step(Plain(v), i) == Ok(Plain(e.vm))
      && (Instructs(v) ==> i.accesses == Accesses(e.events) && i.after == CpuOf(e.vm.core))
  {
    hide CopyDmaByte, Execution.EventStep, Execution.InstructionStep, Steps.EventStep, Steps.InstructionStep,
         Steps.ClassifyCpu, CopyByte, Accesses;
    var x := Exec(v, witnesses, []);
    i := Steps.Instruction([], 1, Cpu(Running, Disabled, 0, 0));
    if v.device.dma.owed != 0 {
      CopyRefines(auth, x);
    } else {
      match Classify(v).value
      case Some(e) => EventRefines(auth, x, e);
      case None => i := InstructionRefines(auth, x);
    }
  }

  // ----- runs -----

  /** One witness list per step. */
  function RunAll(auth: Authority, v: Vm, inputs: seq<seq<Witness>>): Result<Vm>
    decreases |inputs|
  {
    if inputs == [] then Ok(v)
    else
      var e :- Execution.Step(auth, v, inputs[0]);
      RunAll(auth, e.vm, inputs[1..])
  }

  predicate TruthfulStep(v: Vm, witnesses: seq<Witness>) {
    v.device.dma.owed != 0 && witnesses != [] ==> Truthful(v, witnesses[0])
  }

  /** Every byte supplied to a DMA copy is the byte held, as the roots or the lookup argument guarantee. */
  predicate TruthfulRun(auth: Authority, v: Vm, inputs: seq<seq<Witness>>)
    decreases |inputs|
  {
    inputs != [] ==>
      && TruthfulStep(v, inputs[0])
      && (Execution.Step(auth, v, inputs[0]).Ok? ==>
          TruthfulRun(auth, Execution.Step(auth, v, inputs[0]).value.vm, inputs[1..]))
  }

  /** Every accepted run of witnesses is a run of the plain machine over well-timed instructions. */
  lemma {:induction false} RunRefines(auth: Authority, v: Vm, inputs: seq<seq<Witness>>)
    returns (program: seq<Steps.Instruction>)
    requires RunAll(auth, v, inputs).Ok? && v.core.mCycles >= 0 && TruthfulRun(auth, v, inputs)
    ensures |program| == |inputs| && Steps.WellTimedAll(program)
    ensures
      var n := RunAll(auth, v, inputs).value;
      n.core.mCycles >= 0 && Steps.Run(Plain(v), program) == Ok(Plain(n))
    decreases |inputs|
  {
    hide Execution.Step, Steps.Step, Truthful, Steps.WellTimed;
    if inputs == [] {
      program := [];
    } else {
      var i := StepRefines(auth, v, inputs[0]);
      var rest := RunRefines(auth, Execution.Step(auth, v, inputs[0]).value.vm, inputs[1..]);
      program := [i] + rest;
      assert program[0] == i && program[1..] == rest;
    }
  }

  /** Every state a witness run reaches from power-on has devices and mapper in the encoders' ranges. */
  lemma DecodedInRange(auth: Authority, v: Vm, inputs: seq<seq<Witness>>)
    requires v.core.mCycles >= 0 && Plain(v) == Steps.PostBootMachine(v.profile, v.rom, v.memory)
    requires RunAll(auth, v, inputs).Ok? && TruthfulRun(auth, v, inputs)
    ensures
      var n := RunAll(auth, v, inputs).value;
      n.device.Valid() && n.mapper.Valid(n.profile)
  {
    hide RunAll, TruthfulRun, Steps.Run, Steps.WellTimedAll, Device.Valid, Plain;
    var program := RunRefines(auth, v, inputs);
    PostBootValid(v.profile, v.rom, v.memory);
    Steps.RunKeepsValid(Plain(v), program);
    PlainParts(RunAll(auth, v, inputs).value);
  }

  lemma PostBootValid(profile: Profile, rom: map<int, int>, memory: map<int, int>)
    ensures Steps.PostBootMachine(profile, rom, memory).Valid()
  {
  }

  lemma PlainParts(v: Vm)
    requires v.core.mCycles >= 0
    ensures Plain(v).device == v.device && Plain(v).mapper == v.mapper && Plain(v).profile == v.profile
    ensures Plain(v).memory == v.memory
  {
  }

  // ----- a transfer in decoded code -----

  /** A transfer is running before each step. */
  predicate ActiveAll(auth: Authority, v: Vm, inputs: seq<seq<Witness>>)
    decreases |inputs|
  {
    inputs != [] ==>
      && v.device.dma.active
      && (Execution.Step(auth, v, inputs[0]).Ok? ==>
          ActiveAll(auth, Execution.Step(auth, v, inputs[0]).value.vm, inputs[1..]))
  }

  lemma {:induction false} ActiveRunRefines(auth: Authority, v: Vm, inputs: seq<seq<Witness>>)
    returns (program: seq<Steps.Instruction>)
    requires RunAll(auth, v, inputs).Ok? && v.core.mCycles >= 0 && TruthfulRun(auth, v, inputs)
    requires ActiveAll(auth, v, inputs)
    ensures RunAll(auth, v, inputs).value.core.mCycles >= 0
    ensures DmaRun.ActiveRun(Plain(v), program, Plain(RunAll(auth, v, inputs).value))
    decreases |inputs|
  {
    hide Execution.Step, Steps.Step, Truthful, Steps.WellTimed;
    if inputs == [] {
      program := [];
    } else {
      var i := StepRefines(auth, v, inputs[0]);
      var rest := ActiveRunRefines(auth, Execution.Step(auth, v, inputs[0]).value.vm, inputs[1..]);
      program := [i] + rest;
      assert program[0] == i && program[1..] == rest;
    }
  }

  /** Object memory of `n` holds the source bytes seen right after access `k`, the store of `value` to FF46. */
  ghost predicate Snapshot(m: Machine, accesses: seq<BusAccess>, k: nat, value: int, n: Machine) {
    && k < |accesses| && accesses[k] == Store(0xff46, value) && Perform(m, accesses[..k + 1]).Ok?
    && var w := Perform(m, accesses[..k + 1]).value;
       forall j :: 0 <= j < 160 ==> VisibleByte(w, value * 256 + j) == Some(DmaRun.ObjectAt(n, j))
  }

  /**
    * When a decoded instruction starts a transfer, one of its recorded accesses is the FF46 store; and however the
    * witness run goes on, object memory ends up as the 160 source bytes of the moment of that store.
    */
  lemma DecodedTransfer(auth: Authority, v: Vm, first: seq<Witness>, e: Effects, inputs: seq<seq<Witness>>, n: Vm)
    returns (k: nat, value: int)
    requires v.core.mCycles >= 0 && Plain(v).Valid() && Instructs(v) && !v.device.dma.active
    requires Execution.Step(auth, v, first) == Ok(e) && e.vm.device.dma.active
    requires RunAll(auth, e.vm, inputs) == Ok(n) && TruthfulRun(auth, e.vm, inputs) && ActiveAll(auth, e.vm, inputs)
    requires !n.device.dma.active
    ensures n.core.mCycles >= 0 && Snapshot(Plain(v), Accesses(e.events), k, value, Plain(n))
  {
    hide Execution.Step, RunAll, TruthfulRun, ActiveAll, Steps.Step, Machine.Valid, Steps.WellTimed, Perform,
         DmaRun.ActiveRun, Accesses, DmaRun.SourceAt, VisibleByte, DmaRun.ObjectAt, Steps.ClassifyCpu;
    var i := StepRefines(auth, v, first);
    var program := ActiveRunRefines(auth, e.vm, inputs);
    k, value := DmaRun.TransferIsSnapshot(Plain(v), i, program, Plain(n));
  }
}
