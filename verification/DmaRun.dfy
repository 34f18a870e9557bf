/** OAM DMA over whole runs: the deferred copies are a snapshot, and their number follows the clock. */
module DmaRun {

  import opened Wrappers
  import opened Timer
  import opened Devices
  import opened HaltSkips
  import opened Bus
  import opened BusLaws
  import opened Steps
  import Mmio

  /** Memory outside high RAM is the same. */
  ghost predicate SameBelow(m: Machine, n: Machine) {
    && n.profile == m.profile && n.mapper == m.mapper && n.rom == m.rom
    && forall a :: !HighRam(a) ==> At(n.memory, a) == At(m.memory, a)
  }

  /** Everything a transfer may read is the same. */
  ghost predicate SameSource(m: Machine, n: Machine) {
    && n.profile == m.profile && n.mapper == m.mapper && n.rom == m.rom
    && forall a :: !HighRam(a) && !ObjectRam(a) ==> At(n.memory, a) == At(m.memory, a)
  }

  /** Source, object and high RAM are disjoint, so a source byte keeps its value. */
  lemma SourceStable(m: Machine, n: Machine, address: int)
    requires SameSource(m, n) && m.mapper.Valid(m.profile)
    ensures SourceByte(n, address) == SourceByte(m, address)
  {
  }

  // ----- the CPU is confined to high RAM -----

  lemma AccessConfined(m: Machine, a: BusAccess)
    requires m.device.dma.active && Perform1(m, a).Ok?
    ensures HighRam(a.address) && SameBelow(m, Perform1(m, a).value)
    ensures Perform1(m, a).value.device == m.device
  {
    hide Ppu.Mode, Mmio.WriteMmio;
  }

  lemma {:induction false} PerformConfined(m: Machine, accesses: seq<BusAccess>)
    requires m.device.dma.active && Perform(m, accesses).Ok?
    ensures forall k :: 0 <= k < |accesses| ==> HighRam(accesses[k].address)
    ensures SameBelow(m, Perform(m, accesses).value) && Perform(m, accesses).value.device == m.device
    decreases |accesses|
  {
    hide Perform1;
    if accesses != [] {
      AccessConfined(m, accesses[0]);
      PerformConfined(Perform1(m, accesses[0]).value, accesses[1..]);
    }
  }

  lemma LongSkipNeedsRest(d: Device)
    requires LongSkip(d).Some?
    ensures !d.dma.active
  {
    hide ToVBlank, TimerState.TCyclesUntilInterrupt;
  }

  lemma TimingSchedules(m: Machine, n: nat, active: bool)
    requires AddTiming(m, n, active).Ok?
    ensures
      var r := AddTiming(m, n, active).value;
      r.clock == m.clock + n && r.device.dma == m.device.dma.Schedule(n, active)
      && r.memory == m.memory && r.mapper == m.mapper && r.rom == m.rom && r.profile == m.profile && r.cpu == m.cpu
  {
    hide Ticks, Requested, PpuTicks, VBlankRaised, StatRaised;
  }

  /** A step other than a byte copy, during a transfer: only high RAM changes, and one byte falls due per M-cycle. */
  lemma StepWhileActive(m: Machine, i: Instruction)
    requires m.device.dma.active && m.device.dma.owed == 0 && Step(m, i).Ok?
    ensures
      var n := Step(m, i).value;
      && SameBelow(m, n) && n.clock >= m.clock
      && n.device.dma == m.device.dma.Schedule(n.clock - m.clock, true)
  {
    hide Perform, AddTiming, HaltIdle, LongSkip, PendingInterrupt, QuietLong, SameBelow;
    match Classify(m).value
    case None =>
      PerformConfined(m, i.accesses);
      PerformKeepsProfile(m, i.accesses);
      var p := Perform(m, i.accesses).value.(cpu := i.after);
      TimingSchedules(p, i.mCycles, true);
      SameThrough(m, Perform(m, i.accesses).value, Step(m, i).value);
    case Some(Dispatch(k)) => DispatchWhileActive(m, k);
    case Some(Wake) => SameThrough(m, m, Step(m, i).value);
      RestingSchedule(m.device.dma);
    case Some(Skip(n)) => LongSkipNeedsRest(m.device);
    case Some(Idle) =>
      TimingSchedules(m, HaltIdle(m.device), true);
      SameThrough(m, m, Step(m, i).value);
  }

  lemma RestingSchedule(d: Dma)
    requires d.owed == 0
    ensures d.index <= 160 ==> d.Schedule(0, true) == d
    ensures d.index > 160 ==> d.Schedule(0, true) == d
  {
  }

  lemma SameThrough(m: Machine, n: Machine, r: Machine)
    requires r.memory == n.memory && r.mapper == n.mapper && r.rom == n.rom && r.profile == n.profile
    ensures SameBelow(m, n) ==> SameBelow(m, r)
    ensures SameBelow(m, m)
  {
  }

  lemma DispatchWhileActive(m: Machine, k: Interrupt)
    requires m.device.dma.active && DispatchStep(m, k).Ok?
    ensures SameBelow(m, DispatchStep(m, k).value)
    ensures DispatchStep(m, k).value.clock == m.clock + 5
    ensures DispatchStep(m, k).value.device.dma == m.device.dma.Schedule(5, true)
  {
    hide Perform, AddTiming, SameBelow;
    var a := Acknowledged(m, k);
    PerformConfined(a, Pushes(m));
    PerformKeepsProfile(a, Pushes(m));
    var n := Perform(a, Pushes(m)).value;
    var p := n.(cpu := Cpu(Running, Disabled, k.Vector(), (m.cpu.sp - 2) % 0x10000));
    TimingSchedules(p, 5, true);
    SameThrough(a, n, DispatchStep(m, k).value);
    SameFrom(m, a, DispatchStep(m, k).value);
  }

  lemma SameFrom(m: Machine, a: Machine, r: Machine)
    requires a.memory == m.memory && a.mapper == m.mapper && a.rom == m.rom && a.profile == m.profile && SameBelow(a, r)
    ensures SameBelow(m, r)
  {
  }

  // ----- what holds from the FF46 write on -----

  function Least(a: int, b: int): int { if a < b then a else b }

  /** `w` is the machine at the FF46 write, `origin` the clock from which bytes fall due. */
  ghost predicate Tracks(w: Machine, origin: int, m: Machine) {
    var d := m.device.dma;
    && m.Valid() && w.mapper.Valid(w.profile) && SameSource(w, m)
    && d.sourceHigh == w.device.dma.sourceHigh && (d.active <==> d.index < 160)
    && d.index + d.owed == Least(160, m.clock - origin)
    && Copied(w, m, d.index)
  }

  /** Byte `i` of the transfer as the source holds it now, and as object RAM holds it. */
  function SourceAt(w: Machine, high: int, i: int): Result<int> { SourceByte(w, high * 256 + i) }
  function ObjectAt(m: Machine, i: int): int { At(m.memory, 0xfe00 + i) }

  predicate Copied(w: Machine, m: Machine, n: int) {
    forall i :: 0 <= i < n ==> SourceAt(w, w.device.dma.sourceHigh, i) == Ok(ObjectAt(m, i))
  }

  lemma CopyKeepsSource(w: Machine, m: Machine)
    requires SameSource(w, m) && CopyByte(m).Ok? && 0 <= m.device.dma.index < 160
    ensures SameSource(w, CopyByte(m).value)
  {
    hide SourceByte;
  }

  lemma CopyTracks(w: Machine, origin: int, m: Machine)
    requires Tracks(w, origin, m) && m.device.dma.owed != 0 && CopyByte(m).Ok? && CopyByte(m).value.Valid()
    ensures Tracks(w, origin, CopyByte(m).value)
  {
    hide SourceByte, Machine.Valid, SameSource, Mapper.Valid;
    var n := CopyByte(m).value;
    var d := m.device.dma;
    CursorInRange(m);
    CopyKeepsSource(w, m);
    SourceStable(w, m, d.SourceAddress());
    assert Copied(w, n, d.index + 1) by {
      forall i | 0 <= i < d.index + 1
        ensures SourceAt(w, w.device.dma.sourceHigh, i) == Ok(ObjectAt(n, i))
      {
        if i < d.index { assert ObjectAt(n, i) == ObjectAt(m, i); }
      }
    }
  }

  lemma CursorInRange(m: Machine)
    requires m.Valid()
    ensures 0 <= m.device.dma.index <= 160 && 0 <= m.device.dma.owed <= 6
    ensures m.device.dma.index + m.device.dma.owed <= 160
  {
  }

  lemma WaitTracks(w: Machine, origin: int, m: Machine, n: Machine)
    requires Tracks(w, origin, m) && m.device.dma.active && m.device.dma.owed == 0 && n.Valid()
    requires SameBelow(m, n) && n.clock >= m.clock && n.device.dma == m.device.dma.Schedule(n.clock - m.clock, true)
    ensures Tracks(w, origin, n)
  {
    hide SourceByte, Machine.Valid, Mapper.Valid;
    CursorInRange(m);
    assert SameSource(w, n);
    assert Copied(w, n, m.device.dma.index) by {
      forall i | 0 <= i < m.device.dma.index ensures ObjectAt(n, i) == ObjectAt(m, i) {
      }
    }
  }

  /** Every step of a transfer keeps the invariant. */
  lemma StepTracks(w: Machine, origin: int, m: Machine, i: Instruction)
    requires Tracks(w, origin, m) && m.device.dma.active && WellTimed(i) && Step(m, i).Ok?
    ensures Tracks(w, origin, Step(m, i).value)
  {
    hide Tracks, EventStep, InstructionStep, Classify, CopyByte, Machine.Valid, SameBelow;
    TracksValid(w, origin, m);
    StepKeepsValid(m, i);
    if m.device.dma.owed != 0 {
      CopyTracks(w, origin, m);
    } else {
      StepWhileActive(m, i);
      WaitTracks(w, origin, m, Step(m, i).value);
    }
  }

  lemma TracksValid(w: Machine, origin: int, m: Machine)
    requires Tracks(w, origin, m)
    ensures m.Valid()
  {
  }

  /** A run all of whose steps start during the transfer. */
  ghost predicate ActiveRun(m: Machine, program: seq<Instruction>, n: Machine)
    decreases |program|
  {
    if program == [] then n == m
    else m.device.dma.active && WellTimed(program[0]) && Step(m, program[0]).Ok?
         && ActiveRun(Step(m, program[0]).value, program[1..], n)
  }

  lemma {:induction false} RunTracks(w: Machine, origin: int, m: Machine, program: seq<Instruction>, n: Machine)
    requires Tracks(w, origin, m) && ActiveRun(m, program, n)
    ensures Tracks(w, origin, n)
    decreases |program|
  {
    hide Tracks, Step, WellTimed;
    if program != [] {
      StepTracks(w, origin, m, program[0]);
      RunTracks(w, origin, Step(m, program[0]).value, program[1..], n);
    }
  }

  // ----- how a transfer starts -----

  /** The accesses after an FF46 store stay in high RAM, so the start of the transfer is the store itself. */
  lemma StoreStarts(m: Machine, pre: seq<BusAccess>, value: int, post: seq<BusAccess>)
    requires Perform(m, pre + [Store(0xff46, value)] + post).Ok?
    ensures Perform(m, pre + [Store(0xff46, value)]).Ok?
    ensures
      var w, n := Perform(m, pre + [Store(0xff46, value)]).value, Perform(m, pre + [Store(0xff46, value)] + post).value;
      && w.device.dma == Dma(value, 0, true, 0) && SameBelow(w, n) && n.device == w.device
  {
    hide Perform1;
    var store := [Store(0xff46, value)];
    PerformSplit(m, pre + store, post);
    PerformSplit(m, pre, store);
    var p := Perform(m, pre).value;
    assert Perform(p, store) == Perform1(p, store[0]) by { PerformOne(p, store[0]); }
    StoreDma(p, value);
    PerformConfined(Perform(m, pre + store).value, post);
  }

  lemma StoreDma(m: Machine, value: int)
    requires Perform1(m, Store(0xff46, value)).Ok?
    ensures !m.device.dma.active && Perform1(m, Store(0xff46, value)).value.device.dma == Dma(value, 0, true, 0)
  {
    hide Mmio.WriteRequest, Mmio.WritePpu, Mmio.WriteSerial, Mmio.WritePlain, TimerState.Write, Ppu.Mode;
  }

  lemma StartTracks(w: Machine, m: Machine, n: Machine, value: int, owed: int, origin: int)
    requires m.Valid() && n.Valid() && w.device.dma == Dma(value, 0, true, 0) && w.mapper.Valid(w.profile)
    requires SameBelow(w, n) && n.device.dma == Dma(value, 0, true, owed) && owed == n.clock - origin && 0 <= owed <= 6
    ensures Tracks(w, origin, n)
  {
    hide SourceByte, Machine.Valid, Mapper.Valid;
  }

  lemma SameMapper(w: Machine, n: Machine)
    requires n.Valid() && SameBelow(w, n)
    ensures w.mapper.Valid(w.profile)
  {
  }

  /** A transfer started by an instruction: bytes fall due from the end of that instruction. */
  lemma InstructionStarts(m: Machine, i: Instruction, pre: seq<BusAccess>, value: int, post: seq<BusAccess>)
    requires m.Valid() && WellTimed(i) && i.accesses == pre + [Store(0xff46, value)] + post
    requires m.device.dma.owed == 0 && Classify(m) == Ok(None) && Step(m, i).Ok?
    ensures Perform(m, pre + [Store(0xff46, value)]).Ok?
    ensures Tracks(Perform(m, pre + [Store(0xff46, value)]).value, Step(m, i).value.clock, Step(m, i).value)
    ensures Step(m, i).value.device.dma.owed == 0
  {
    hide Perform, AddTiming, Tracks, Classify, SameBelow, Machine.Valid, CopyByte, Mapper.Valid;
    StepKeepsValid(m, i);
    StoreStarts(m, pre, value, post);
    var w, p := Perform(m, pre + [Store(0xff46, value)]).value, Perform(m, i.accesses).value;
    var n := Step(m, i).value;
    assert !m.device.dma.active by { InactiveBefore(m, pre, value); }
    TimingSchedules(p.(cpu := i.after), i.mCycles, false);
    SameThrough(w, p, n);
    SameMapper(w, n);
    StartTracks(w, m, n, value, 0, n.clock);
  }

  lemma {:induction false} InactiveBefore(m: Machine, pre: seq<BusAccess>, value: int)
    requires Perform(m, pre + [Store(0xff46, value)]).Ok?
    ensures !m.device.dma.active
  {
    var all := pre + [Store(0xff46, value)];
    assert all[|pre|].address == 0xff46;
    if m.device.dma.active { PerformConfined(m, all); }
  }

  /** A transfer started by the low push of an interrupt dispatch: five bytes already fall due for the dispatch
      itself. */
  lemma DispatchStarts(m: Machine, k: Interrupt, i: Instruction)
    requires m.Valid() && WellTimed(i) && m.cpu.sp == 0xff48 && m.device.dma.owed == 0
    requires Classify(m) == Ok(Some(Dispatch(k))) && Step(m, i).Ok?
    ensures Perform(Acknowledged(m, k), Pushes(m)).Ok?
    ensures Tracks(Perform(Acknowledged(m, k), Pushes(m)).value, Step(m, i).value.clock - 5, Step(m, i).value)
    ensures Step(m, i).value.device.dma.owed == 5
  {
    hide Perform, AddTiming, Tracks, Classify, SameBelow, Machine.Valid, CopyByte, Mapper.Valid;
    StepKeepsValid(m, i);
    var a := Acknowledged(m, k);
    var pre, value := [Store(0xff47, m.cpu.pc / 256)], m.cpu.pc % 256;
    assert Pushes(m) == pre + [Store(0xff46, value)];
    assert pre + [Store(0xff46, value)] + [] == Pushes(m);
    StoreStarts(a, pre, value, []);
    var w, n := Perform(a, Pushes(m)).value, Step(m, i).value;
    PerformKeepsProfile(a, Pushes(m));
    TimingSchedules(w.(cpu := Cpu(Running, Disabled, k.Vector(), (m.cpu.sp - 2) % 0x10000)), 5, true);
    SameThrough(w, w, n);
    SameMapper(w, n);
    StartTracks(w, m, n, value, 5, n.clock - 5);
  }

  // ----- main results -----

  /**
    * Snapshot: when the transfer ends, object RAM holds the 160 source bytes as they were at the FF46 write,
    * however the copies were interleaved with CPU steps.
    */
  lemma SnapshotAtEnd(w: Machine, origin: int, m: Machine, program: seq<Instruction>, n: Machine)
    requires Tracks(w, origin, m) && ActiveRun(m, program, n) && !n.device.dma.active
    ensures forall i :: 0 <= i < 160 ==> SourceAt(w, w.device.dma.sourceHigh, i) == Ok(ObjectAt(n, i))
  {
    hide SourceByte, Machine.Valid, SameSource, ActiveRun, Mapper.Valid;
    RunTracks(w, origin, m, program, n);
    CursorInRange(n);
  }

  /**
    * Conservation: whenever nothing is owed, the bytes copied since the start are `min(160, M-cycles since the
    * origin)`, and never more than 160 are copied or owed.
    */
  lemma CopiesFollowClock(w: Machine, origin: int, m: Machine, program: seq<Instruction>, n: Machine)
    requires Tracks(w, origin, m) && ActiveRun(m, program, n)
    ensures n.device.dma.index + n.device.dma.owed == Least(160, n.clock - origin) <= 160
    ensures n.device.dma.owed == 0 ==> n.device.dma.index == Least(160, n.clock - origin)
  {
    hide ActiveRun, Machine.Valid, SourceByte, SameSource, Copied, Mapper.Valid;
    RunTracks(w, origin, m, program, n);
  }

  /** Object-RAM addresses written by the byte copies of a run, in order. */
  function Destinations(m: Machine, program: seq<Instruction>): seq<int>
    decreases |program|
  {
    if program == [] || Step(m, program[0]).Err? then []
    else (if m.device.dma.owed != 0 then [m.device.dma.DestinationAddress()] else [])
         + Destinations(Step(m, program[0]).value, program[1..])
  }

  function Ascending(from: int, count: int): seq<int>
    decreases count
  {
    if count <= 0 then [] else [0xfe00 + from] + Ascending(from + 1, count - 1)
  }

  /** Copies write ascending addresses without a gap or a repeat. */
  lemma {:induction false} DestinationsAscend(w: Machine, origin: int, m: Machine, program: seq<Instruction>,
                                              n: Machine)
    requires Tracks(w, origin, m) && ActiveRun(m, program, n)
    ensures n.device.dma.index >= m.device.dma.index
    ensures Destinations(m, program) == Ascending(m.device.dma.index, n.device.dma.index - m.device.dma.index)
    decreases |program|
  {
    hide Tracks, Step, WellTimed;
    if program != [] {
      var s := Step(m, program[0]).value;
      StepTracks(w, origin, m, program[0]);
      DestinationsAscend(w, origin, s, program[1..], n);
      StepMovesIndex(w, origin, m, program[0]);
    }
  }

  lemma StepMovesIndex(w: Machine, origin: int, m: Machine, i: Instruction)
    requires Tracks(w, origin, m) && m.device.dma.active && Step(m, i).Ok?
    ensures Step(m, i).value.device.dma.index == m.device.dma.index + (if m.device.dma.owed != 0 then 1 else 0)
  {
    hide EventStep, InstructionStep, Classify, SourceByte, Machine.Valid, SameSource, Copied, SameBelow;
    CursorInRange(m);
    if m.device.dma.owed == 0 { StepWhileActive(m, i); }
  }

  // ----- any step that starts a transfer -----

  /** The accesses a step performs, and the machine it performs them on. */
  function StepAccesses(m: Machine, i: Instruction): seq<BusAccess> {
    match Classify(m)
    case Ok(None) => i.accesses
    case Ok(Some(Dispatch(_))) => Pushes(m)
    case _ => []
  }

  function StepBase(m: Machine): Machine {
    match Classify(m)
    case Ok(Some(Dispatch(interrupt))) => Acknowledged(m, interrupt)
    case _ => m
  }

  /** M-cycles of the starting step that already count: those of an interrupt dispatch. */
  function Early(m: Machine): int {
    match Classify(m)
    case Ok(Some(Dispatch(_))) => 5
    case _ => 0
  }

  /** Only an FF46 store starts a transfer. */
  lemma {:induction false} StartFound(m: Machine, accesses: seq<BusAccess>) returns (k: nat)
    requires !m.device.dma.active && Perform(m, accesses).Ok? && Perform(m, accesses).value.device.dma.active
    ensures k < |accesses| && accesses[k].Store? && accesses[k].address == 0xff46
    decreases |accesses|
  {
    var n := Perform1(m, accesses[0]).value;
    OnlyStoreStarts(m, accesses[0]);
    if n.device.dma.active {
      k := 0;
    } else {
      k := StartFound(n, accesses[1..]);
      k := k + 1;
    }
  }

  lemma OnlyStoreStarts(m: Machine, a: BusAccess)
    requires !m.device.dma.active && Perform1(m, a).Ok?
    ensures Perform1(m, a).value.device.dma.active ==> a.Store? && a.address == 0xff46
  {
    hide Mmio.WriteRequest, Mmio.WritePpu, Mmio.WriteSerial, Mmio.WritePlain, TimerState.Write, Ppu.Mode,
         Mmio.JoypadFalls;
  }

  lemma IdleDoesNotStart(m: Machine, i: Instruction)
    requires m.device.dma.owed == 0 && !m.device.dma.active && Step(m, i).Ok? && Step(m, i).value.device.dma.active
    ensures Classify(m) == Ok(None) || exists k :: Classify(m) == Ok(Some(Dispatch(k)))
  {
    hide Perform, AddTiming, HaltIdle, LongSkip, PendingInterrupt, DispatchStep, InstructionStep;
    match Classify(m).value
    case Some(Skip(n)) => SkipKeepsDma(m.device, n);
    case Some(Idle) => TimingSchedules(m, HaltIdle(m.device), false);
    case _ =>
  }

  lemma {:induction false} SkipKeepsDma(d: Device, n: nat)
    ensures QuietLong(d, n).dma == d.dma
    decreases n
  {
    if n > 0 {
      var chunk := if n < 63 then n else 63;
      SkipKeepsDma(d.AdvanceM(chunk), n - chunk);
    }
  }

  lemma DispatchStartsAt(m: Machine, k: Interrupt) returns (j: nat)
    requires m.Valid() && !m.device.dma.active && DispatchStep(m, k).Ok? && DispatchStep(m, k).value.device.dma.active
    ensures m.cpu.sp == 0xff48 && Perform(Acknowledged(m, k), Pushes(m)).Ok?
    ensures j == 1 && Pushes(m)[j] == Store(0xff46, m.cpu.pc % 256)
  {
    hide Perform, AddTiming, Perform1;
    var a, pushes := Acknowledged(m, k), Pushes(m);
    var n := Perform(a, pushes).value;
    TimingSchedules(n.(cpu := Cpu(Running, Disabled, k.Vector(), (m.cpu.sp - 2) % 0x10000)), 5, n.device.dma.active);
    j := StartFound(a, pushes);
    SecondPush(a, pushes);
  }

  /** The first push cannot be the FF46 store: the second one would then be outside high RAM. */
  lemma SecondPush(m: Machine, pushes: seq<BusAccess>)
    requires |pushes| == 2 && Perform(m, pushes).Ok? && pushes[1].address == (pushes[0].address - 1) % 0x10000
    ensures !(pushes[0].Store? && pushes[0].address == 0xff46)
  {
    if pushes[0].Store? && pushes[0].address == 0xff46 {
      SplitPushes(m, pushes);
      StoreStarts(m, [], pushes[0].value, [pushes[1]]);
      PerformConfined(Perform(m, [pushes[0]]).value, [pushes[1]]);
    }
  }

  lemma SplitPushes(m: Machine, pushes: seq<BusAccess>)
    requires |pushes| == 2
    ensures pushes == [] + [pushes[0]] + [pushes[1]] && [] + [pushes[0]] == [pushes[0]]
    ensures Perform(m, pushes)
            == (if Perform(m, [pushes[0]]).Ok? then Perform(Perform(m, [pushes[0]]).value, [pushes[1]])
                else Perform(m, [pushes[0]]))
  {
    assert pushes == [pushes[0]] + [pushes[1]];
    PerformSplit(m, [pushes[0]], [pushes[1]]);
  }

  /** Whatever step starts a transfer, it starts at an FF46 store, and bytes fall due from the end of the step save an
      interrupt dispatch, whose own five M-cycles count. */
  lemma AnyStart(m: Machine, i: Instruction) returns (k: nat, value: int)
    requires m.Valid() && WellTimed(i) && !m.device.dma.active && Step(m, i).Ok? && Step(m, i).value.device.dma.active
    ensures k < |StepAccesses(m, i)| && StepAccesses(m, i)[k] == Store(0xff46, value)
    ensures Perform(StepBase(m), StepAccesses(m, i)[..k + 1]).Ok?
    ensures Perform(StepBase(m), StepAccesses(m, i)[..k + 1]).value.device.dma == Dma(value, 0, true, 0)
    ensures Tracks(Perform(StepBase(m), StepAccesses(m, i)[..k + 1]).value, Step(m, i).value.clock - Early(m),
                   Step(m, i).value)
    ensures Step(m, i).value.device.dma.owed == Early(m)
  {
    hide Perform, Tracks, Perform1, AddTiming, HaltIdle, LongSkip, PendingInterrupt, QuietLong, WellTimed,
         Machine.Valid, CopyByte;
    NothingOwed(m);
    IdleDoesNotStart(m, i);
    if Classify(m) == Ok(None) {
      k, value := InstructionStart(m, i);
    } else {
      var e :| Classify(m) == Ok(Some(Dispatch(e)));
      k := DispatchStartsAt(m, e);
      value := m.cpu.pc % 256;
      DispatchStarts(m, e, i);
      WholePushes(m);
      var pre := [Store(0xff47, m.cpu.pc / 256)];
      assert Pushes(m) == pre + [Store(0xff46, value)] + [];
      StoreStarts(Acknowledged(m, e), pre, value, []);
    }
  }

  lemma WholePushes(m: Machine)
    ensures Pushes(m)[..2] == Pushes(m) && |Pushes(m)| == 2
  {
  }

  lemma NothingOwed(m: Machine)
    requires m.Valid() && !m.device.dma.active
    ensures m.device.dma.owed == 0
  {
  }

  lemma InstructionStart(m: Machine, i: Instruction) returns (k: nat, value: int)
    requires m.Valid() && WellTimed(i) && m.device.dma.owed == 0 && !m.device.dma.active && Classify(m) == Ok(None)
    requires Step(m, i).Ok? && Step(m, i).value.device.dma.active
    ensures k < |i.accesses| && i.accesses[k] == Store(0xff46, value)
    ensures Perform(m, i.accesses[..k + 1]).Ok?
    ensures Perform(m, i.accesses[..k + 1]).value.device.dma == Dma(value, 0, true, 0)
    ensures Tracks(Perform(m, i.accesses[..k + 1]).value, Step(m, i).value.clock, Step(m, i).value)
    ensures Step(m, i).value.device.dma.owed == 0
  {
    hide Perform, Tracks, Perform1, Classify, AddTiming, CopyByte, Machine.Valid;
    TimingSchedules(Perform(m, i.accesses).value.(cpu := i.after), i.mCycles, false);
    k := StartFound(m, i.accesses);
    value := i.accesses[k].value;
    var pre, post := i.accesses[..k], i.accesses[k + 1..];
    assert i.accesses == pre + [Store(0xff46, value)] + post && i.accesses[..k + 1] == pre + [Store(0xff46, value)];
    InstructionStarts(m, i, pre, value, post);
    StoreStarts(m, pre, value, post);
  }

  /**
    * For every step that starts a transfer and every continuation to its end: object RAM then holds the 160 bytes
    * that the CPU would have loaded from the source right after the FF46 store.
    */
  lemma TransferIsSnapshot(m: Machine, i: Instruction, program: seq<Instruction>, n: Machine)
    returns (k: nat, value: int)
    requires m.Valid() && WellTimed(i) && !m.device.dma.active && Step(m, i).Ok? && Step(m, i).value.device.dma.active
    requires ActiveRun(Step(m, i).value, program, n) && !n.device.dma.active
    ensures k < |StepAccesses(m, i)| && StepAccesses(m, i)[k] == Store(0xff46, value)
    ensures Perform(StepBase(m), StepAccesses(m, i)[..k + 1]).Ok?
    ensures
      var w := Perform(StepBase(m), StepAccesses(m, i)[..k + 1]).value;
      forall j :: 0 <= j < 160 ==>
        VisibleByte(w, value * 256 + j) == Some(ObjectAt(n, j)) && SourceAt(w, value, j) == Ok(ObjectAt(n, j))
  {
    hide Perform, Tracks, Step, ActiveRun, SourceByte, Machine.Valid, WellTimed, StepBase, StepAccesses, Early,
         VisibleByte, ObjectAt;
    k, value := AnyStart(m, i);
    var w := Perform(StepBase(m), StepAccesses(m, i)[..k + 1]).value;
    SnapshotAtEnd(w, Step(m, i).value.clock - Early(m), Step(m, i).value, program, n);
    AccessInRange(m, i, k);
    forall j | 0 <= j < 160
      ensures VisibleByte(w, value * 256 + j) == Some(ObjectAt(n, j)) && SourceAt(w, value, j) == Ok(ObjectAt(n, j))
    {
      SourceIsVisible(w, value * 256 + j);
    }
  }

  lemma AccessInRange(m: Machine, i: Instruction, k: nat)
    requires m.Valid() && WellTimed(i) && k < |StepAccesses(m, i)|
    ensures StepAccesses(m, i)[k].Valid()
  {
    hide Classify, Device.Valid;
  }

  /**
    * For every step that starts a transfer and every continuation within it: bytes copied or owed are
    * `min(160, later M-cycles + Early)`, so `min(160, later M-cycles)` exactly when an instruction started it
    * or 160 M-cycles have passed.
    */
  lemma TransferFollowsClock(m: Machine, i: Instruction, program: seq<Instruction>, n: Machine)
    requires m.Valid() && WellTimed(i) && !m.device.dma.active && Step(m, i).Ok? && Step(m, i).value.device.dma.active
    requires ActiveRun(Step(m, i).value, program, n)
    ensures
      var later := n.clock - Step(m, i).value.clock;
      var due := n.device.dma.index + n.device.dma.owed;
      && due == Least(160, later + Early(m))
      && (due == Least(160, later) <==> Classify(m) == Ok(None) || later >= 160)
  {
    hide Perform, Tracks, Step, ActiveRun, SourceByte, Machine.Valid, WellTimed, StepBase, StepAccesses;
    hide Perform1, AddTiming, HaltIdle, LongSkip, PendingInterrupt;
    var k, value := AnyStart(m, i);
    var w := Perform(StepBase(m), StepAccesses(m, i)[..k + 1]).value;
    CopiesFollowClock(w, Step(m, i).value.clock - Early(m), Step(m, i).value, program, n);
    StartKind(m, i);
  }

  lemma StartKind(m: Machine, i: Instruction)
    requires m.Valid() && !m.device.dma.active && Step(m, i).Ok? && Step(m, i).value.device.dma.active
    ensures Early(m) == if Classify(m) == Ok(None) then 0 else 5
  {
    hide Perform, AddTiming, HaltIdle, LongSkip, PendingInterrupt, DispatchStep, InstructionStep, Machine.Valid;
    NothingOwed(m);
    IdleDoesNotStart(m, i);
  }

  /** A machine about to dispatch VBlank with its stack at FF48. */
  function StackOnFf46(): Machine {
    var lines := Lines(true, false, false, false, false);
    Machine(Profile(true, false), Cpu(Running, Enabled, 0xc000, 0xff48), 0,
            Mmio.PostBoot.(request := lines, enable := lines),
            Mapper(false, 1, 0), map[], map[])
  }

  /** Both pushes are accepted: FF47 is a palette, FF46 starts the transfer. */
  lemma PushesAccepted(m: Machine, high: int, low: int)
    requires !m.device.dma.active
    ensures Perform1(m, Store(0xff47, high)).Ok? && !Perform1(m, Store(0xff47, high)).value.device.dma.active
    ensures Perform1(m, Store(0xff46, low)).Ok?
  {
    hide Mmio.WriteRequest, Mmio.WritePpu, Mmio.WriteSerial, Mmio.WritePlain, TimerState.Write, Ppu.Mode;
  }

  /** That dispatch starts a transfer with five bytes owed before any later M-cycle. */
  lemma DispatchOwesEarly(i: Instruction)
    ensures StackOnFf46().Valid() && Step(StackOnFf46(), i).Ok?
    ensures Step(StackOnFf46(), i).value.device.dma == Dma(0, 0, true, 5)
  {
    hide Perform, Perform1, Device.AdvanceM, AddTiming;
    var m := StackOnFf46();
    var a := Acknowledged(m, VBlank);
    assert Pushes(m) == [Store(0xff47, 0xc0), Store(0xff46, 0)];
    SplitPushes(a, Pushes(m));
    PerformOne(a, Store(0xff47, 0xc0));
    PushesAccepted(a, 0xc0, 0);
    var b := Perform1(a, Store(0xff47, 0xc0)).value;
    PerformOne(b, Store(0xff46, 0));
    PushesAccepted(b, 0xc0, 0);
    StoreDma(b, 0);
    PerformKeepsProfile(a, Pushes(m));
    var w := Perform(a, Pushes(m)).value;
    TimingAccepted(w.(cpu := Cpu(Running, Disabled, 0x40, 0xff46)));
    TimingSchedules(w.(cpu := Cpu(Running, Disabled, 0x40, 0xff46)), 5, true);
  }

  lemma TimingAccepted(m: Machine)
    requires m.clock == 0
    ensures AddTiming(m, 5, true).Ok?
  {
  }
}
