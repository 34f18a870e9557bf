/** The typed machine row: one-hot modes, the interrupt priority prefix, and the CPU state of a dispatch or wake-up. */
module MachineRow {

  import opened Wrappers
  import opened Modulus
  import opened Field
  import opened Gadgets
  import opened Devices
  import opened Bus
  import opened Steps
  import DmaRun

  /** Bus slots of a dispatch: the two pushed bytes, whether each is a memory write, and the activity of the other
      slots. */
  datatype Slots = Slots(
    firstAddress: int, firstValue: int, firstWrite: int, secondAddress: int, secondValue: int, secondWrite: int,
    others: seq<int>)

  /** CPU registers and flow counters on both sides, activity of the five bus slots, and the six short cycles. */
  datatype Kept = Kept(
    registers: seq<int>, registersAfter: seq<int>, flow: seq<int>, flowAfter: seq<int>, active: seq<int>,
    short: seq<int>)
  {
    predicate Shape() {
      && |registers| == 8 && |registersAfter| == 8 && |flow| == 8 && |flowAfter| == 8 && |active| == 5 && |short| == 6
      && (forall i :: 0 <= i < 8 ==>
          Felt(registers[i]) && Felt(registersAfter[i]) && Felt(flow[i]) && Felt(flowAfter[i]))
      && (forall i :: 0 <= i < 5 ==> Felt(active[i]))
    }
  }

  datatype MachineColumns = MachineColumns(
    idle: int, untilVBlank: int, wake: int, interrupt: int, dmaByte: int, untilSerial: int, untilTimer: int,
    requests: seq<int>, enables: seq<int>, pcBits: seq<int>, spBits: seq<int>, sources: seq<int>, clear: seq<int>,
    stackWrap: int, firstWrap: int, beforeRun: int, afterRun: int, beforeIme: int, afterIme: int,
    beforePc: int, afterPc: int, beforeSp: int, afterSp: int, cycles: int, slots: Slots,
    kept: Kept)
  {
    predicate Shape() {
      && |requests| == 5 && |enables| == 5 && |pcBits| == 16 && |spBits| == 16 && |sources| == 5 && |clear| == 5
      && Felt(beforeRun) && Felt(afterRun) && Felt(beforeIme) && Felt(afterIme) && Felt(beforePc) && Felt(afterPc)
      && Felt(beforeSp) && Felt(afterSp) && Felt(cycles)
      && Felt(slots.firstAddress) && Felt(slots.firstValue) && Felt(slots.secondAddress) && Felt(slots.secondValue)
      && Felt(slots.firstWrite) && Felt(slots.secondWrite)
      && |slots.others| == 3 && (forall i :: 0 <= i < 3 ==> Felt(slots.others[i])) && kept.Shape()
    }

    function Flags(): seq<int> {
      [idle, untilVBlank, wake, interrupt, dmaByte, untilSerial, untilTimer, stackWrap, firstWrap]
    }

    predicate Boolean() {
      && Bits(Flags()) && Bits(requests) && Bits(enables) && Bits(pcBits) && Bits(spBits) && Bits(sources)
      && Bits(clear) && Bits(kept.short)
    }

    predicate BooleanIdentitiesHold() {
      && BooleanIdentities(Flags()) && BooleanIdentities(requests) && BooleanIdentities(enables)
      && BooleanIdentities(pcBits)
      && BooleanIdentities(spBits) && BooleanIdentities(sources) && BooleanIdentities(clear)
      && BooleanIdentities(kept.short)
    }

    function Modes(): int { idle + untilVBlank + wake + interrupt + dmaByte + untilSerial + untilTimer }
    function Sleeping(): int { idle + untilVBlank + untilSerial + untilTimer }

    function Pending(k: nat): int
      requires Shape() && k < 5
    {
      requests[k] * enables[k]
    }
  }

  function HigherClear(r: MachineColumns, k: nat): int
    requires r.Shape() && k < 5
  {
    if k == 0 then 1 else r.clear[k - 1]
  }

  /** Two identities per line: the running clear prefix, and the source that it leaves. */
  predicate PriorityIdentities(r: MachineColumns, k: nat)
    requires r.Shape() && k < 5
  {
    && Zero(r.clear[k] - HigherClear(r, k) * (1 - r.Pending(k)))
    && Zero(r.sources[k] - r.interrupt * r.Pending(k) * HigherClear(r, k))
  }

  predicate ModeIdentities(r: MachineColumns)
    requires r.Shape()
  {
    && Zero(r.Modes() - 1)
    && (forall k: nat :: k < 5 ==> PriorityIdentities(r, k))
    && Zero(r.sources[0] + r.sources[1] + r.sources[2] + r.sources[3] + r.sources[4] - r.interrupt)
    && Zero(r.interrupt * r.beforeRun * (r.beforeRun - 1) * (r.beforeRun - 3))
    && Zero(r.interrupt * (r.beforeIme - 2)) && Zero(r.interrupt * r.afterIme) && Zero(r.interrupt * r.afterRun)
    && Zero(r.wake * (r.beforeRun - 1)) && Zero(r.wake * r.afterRun) && Zero(r.wake * r.beforeIme * (r.beforeIme - 1))
    && Zero(r.wake * r.clear[4])
    && Zero(r.Sleeping() * (r.beforeRun - 1)) && Zero(r.Sleeping() * (r.clear[4] - 1))
    && Zero((r.wake + r.dmaByte) * r.cycles) && Zero(r.interrupt * (r.cycles - 5))
    && SkipIdentities(r)
  }

  /** The enable bits each skip needs, and the one to six M-cycles of an idle batch. */
  predicate SkipIdentities(r: MachineColumns)
    requires r.Shape()
  {
    && Zero(r.untilVBlank * (r.enables[0] - 1)) && Zero(r.untilVBlank * r.enables[4])
    && Zero(r.untilSerial * (r.enables[3] - 1)) && Zero(r.untilTimer * (r.enables[2] - 1))
    && Zero(r.idle * (r.cycles - 1) * (r.cycles - 2) * (r.cycles - 3) * (r.cycles - 4) * (r.cycles - 5)
            * (r.cycles - 6))
  }

  /** The machine row keeps CPU and flow state but for its own effect, leaves the bus alone, and counts short cycles. */
  predicate KeptIdentities(r: MachineColumns)
    requires r.Shape()
  {
    var k, passive := r.kept, r.Sleeping() + r.dmaByte;
    && (forall i :: 0 <= i < 8 ==>
          && Zero(passive * (k.registersAfter[i] - k.registers[i]))
          && Zero(r.wake * (k.registersAfter[i] - k.registers[i]))
          && Zero(r.interrupt * (k.registersAfter[i] - k.registers[i])) && Zero(k.flowAfter[i] - k.flow[i]))
    && Zero(passive * (r.afterPc - r.beforePc)) && Zero(passive * (r.afterSp - r.beforeSp))
    && Zero(passive * (r.afterIme - r.beforeIme)) && Zero(passive * (r.afterRun - r.beforeRun))
    && Zero(r.wake * (r.afterPc - r.beforePc)) && Zero(r.wake * (r.afterSp - r.beforeSp))
    && Zero(r.wake * (r.afterIme - r.beforeIme))
    && (forall i :: 0 <= i < 5 ==> Zero((r.Sleeping() + r.wake) * k.active[i]))
    && (forall i :: 0 <= i < 5 ==> Zero((1 - k.short[i]) * k.short[i + 1]))
    && Zero(Sum(k.short) - (r.idle + r.interrupt) * r.cycles)
  }

  predicate InputIdentities(r: MachineColumns)
    requires r.Shape()
  {
    Zero(r.beforePc - Packed(r.pcBits)) && Zero(r.beforeSp - Packed(r.spBits))
  }

  function VectorColumn(s: seq<int>): int
    requires |s| == 5
  {
    0x40 * s[0] + 0x48 * s[1] + 0x50 * s[2] + 0x58 * s[3] + 0x60 * s[4]
  }

  predicate DispatchIdentities(r: MachineColumns)
    requires r.Shape()
  {
    && Zero(r.interrupt * (r.afterPc - VectorColumn(r.sources)))
    && Zero(r.interrupt * (r.afterSp - r.beforeSp + 2 - 65536 * r.stackWrap))
    && Zero(r.interrupt * (r.slots.firstAddress - r.beforeSp + 1 - 65536 * r.firstWrap))
    && Zero(r.interrupt * (r.slots.secondAddress - r.beforeSp + 2 - 65536 * r.stackWrap))
    && Zero(r.interrupt * (r.slots.firstValue - Packed(r.pcBits[8..16])))
    && Zero(r.interrupt * (r.slots.secondValue - Packed(r.pcBits[..8])))
  }

  /** Both pushes are memory writes and no other slot is used. */
  predicate KindIdentities(r: MachineColumns)
    requires r.Shape()
  {
    && Zero(r.slots.firstWrite - r.interrupt) && Zero(r.slots.secondWrite - r.interrupt)
    && forall i :: 0 <= i < 3 ==> Zero(r.interrupt * r.slots.others[i])
  }

  /** The boolean identities of the row say exactly that its columns are bits. */
  lemma MachineBits(r: MachineColumns)
    ensures r.BooleanIdentitiesHold() <==> r.Boolean()
  {
    hide Bits, BooleanIdentities;
    BooleanColumns(r.Flags());
    BooleanColumns(r.requests);
    BooleanColumns(r.enables);
    BooleanColumns(r.pcBits);
    BooleanColumns(r.spBits);
    BooleanColumns(r.sources);
    BooleanColumns(r.clear);
    BooleanColumns(r.kept.short);
  }

  lemma FlagBits(r: MachineColumns)
    requires r.Boolean()
    ensures Bit(r.idle) && Bit(r.untilVBlank) && Bit(r.wake) && Bit(r.interrupt) && Bit(r.dmaByte) && Bit(r.untilSerial)
    ensures Bit(r.untilTimer) && Bit(r.stackWrap) && Bit(r.firstWrap)
  {
    var f := r.Flags();
    assert f[0] == r.idle && f[1] == r.untilVBlank && f[2] == r.wake && f[3] == r.interrupt && f[4] == r.dmaByte;
    assert f[5] == r.untilSerial && f[6] == r.untilTimer && f[7] == r.stackWrap && f[8] == r.firstWrap;
  }

  // ----- encodings -----

  function RunCode(run: RunState): int {
    match run case Running => 0 case Halted => 1 case Stopped => 2 case HaltBug => 3
  }
  function ImeCode(ime: Ime): int { match ime case Disabled => 0 case EnablePending => 1 case Enabled => 2 }

  function Line(l: Lines, k: nat): bool
    requires k < 5
  {
    [l.vblank, l.stat, l.timer, l.serial, l.joypad][k]
  }

  function Nth(k: nat): Interrupt
    requires k < 5
  {
    [VBlank, LcdStat, TimerOverflow, SerialDone, Joypad][k]
  }

  /** The before columns carry the machine state. */
  predicate Carries(r: MachineColumns, m: Machine) {
    && r.Shape()
    && r.beforeRun == RunCode(m.cpu.run) && r.beforeIme == ImeCode(m.cpu.ime) && r.beforePc == m.cpu.pc
    && r.beforeSp == m.cpu.sp
    && forall k: nat :: k < 5 ==>
         r.requests[k] == AsBit(Line(m.device.request, k)) && r.enables[k] == AsBit(Line(m.device.enable, k))
  }

  // ----- priority -----

  predicate Waiting(d: Device, k: nat)
    requires k < 5
  {
    Line(d.request, k) && Line(d.enable, k)
  }

  /** Line `k` waits and no line of higher priority does. */
  predicate First(d: Device, k: nat)
    requires k < 5
  {
    Waiting(d, k) && forall j: nat :: j < k ==> !Waiting(d, j)
  }

  lemma FirstIsPending(d: Device, k: nat)
    requires k < 5 && First(d, k)
    ensures PendingInterrupt(d) == Some(Nth(k))
  {
    assert k > 0 ==> !Waiting(d, 0);
    assert k > 1 ==> !Waiting(d, 1);
    assert k > 2 ==> !Waiting(d, 2);
    assert k > 3 ==> !Waiting(d, 3);
  }

  lemma NoneIsPending(d: Device)
    ensures PendingInterrupt(d).None? <==> forall k: nat :: k < 5 ==> !Waiting(d, k)
  {
    assert Waiting(d, 0) <==> d.request.vblank && d.enable.vblank;
    assert Waiting(d, 1) <==> d.request.stat && d.enable.stat;
    assert Waiting(d, 2) <==> d.request.timer && d.enable.timer;
    assert Waiting(d, 3) <==> d.request.serial && d.enable.serial;
    assert Waiting(d, 4) <==> d.request.joypad && d.enable.joypad;
  }

  lemma EqClearPrefix(next: int, higher: int, pending: int)
    requires Bit(next) && Bit(higher) && Bit(pending) && Zero(next - higher * (1 - pending))
    ensures next == AsBit(higher == 1 && pending == 0)
  {
    EqProduct(next, higher, 1 - pending);
  }

  lemma EqSource(source: int, interrupt: int, pending: int, higher: int)
    requires Bit(source) && Bit(interrupt) && Bit(pending) && Bit(higher) && Zero(source - interrupt * pending * higher)
    ensures source == AsBit(interrupt == 1 && pending == 1 && higher == 1)
  {
    ZeroIsZero(source - interrupt * pending * higher);
  }

  lemma PendingBit(r: MachineColumns, m: Machine, k: nat)
    requires Carries(r, m) && k < 5
    ensures r.Pending(k) == AsBit(Waiting(m.device, k))
  {
  }

  lemma {:induction false} ClearPrefix(r: MachineColumns, m: Machine, k: nat)
    requires Carries(r, m) && r.Boolean() && (forall j: nat :: j < 5 ==> PriorityIdentities(r, j)) && k < 5
    ensures HigherClear(r, k) == AsBit(forall j: nat :: j < k ==> !Waiting(m.device, j))
    ensures r.clear[k] == AsBit(forall j: nat :: j <= k ==> !Waiting(m.device, j))
  {
    hide Zero, Carries;
    CarriesShape(r, m);
    if k > 0 { ClearPrefix(r, m, k - 1); }
    PendingBit(r, m, k);
    assert PriorityIdentities(r, k);
    EqClearPrefix(r.clear[k], HigherClear(r, k), r.Pending(k));
  }

  lemma CarriesShape(r: MachineColumns, m: Machine)
    requires Carries(r, m)
    ensures r.Shape()
  {
  }

  /** A source column is set exactly for the first waiting line of a dispatch. */
  lemma SourceForced(r: MachineColumns, m: Machine, k: nat)
    requires Carries(r, m) && r.Boolean() && (forall j: nat :: j < 5 ==> PriorityIdentities(r, j)) && k < 5
    ensures r.sources[k] == AsBit(r.interrupt == 1 && First(m.device, k))
  {
    hide Zero;
    ClearPrefix(r, m, k);
    PendingBit(r, m, k);
    assert PriorityIdentities(r, k);
    FlagBits(r);
    EqSource(r.sources[k], r.interrupt, r.Pending(k), HigherClear(r, k));
  }

  lemma EqSum(a: int, b: int, c: int, d: int, e: int)
    requires Bit(a) && Bit(b) && Bit(c) && Bit(d) && Bit(e) && Zero(a + b + c + d + e - 1)
    ensures a == 1 || b == 1 || c == 1 || d == 1 || e == 1
  {
    ZeroIsZero(a + b + c + d + e - 1);
  }

  lemma SomeSource(r: MachineColumns) returns (k: nat)
    requires r.Shape() && r.Boolean() && ModeIdentities(r) && r.interrupt == 1
    ensures k < 5 && r.sources[k] == 1
  {
    hide Zero, PriorityIdentities, SkipIdentities;
    EqSum(r.sources[0], r.sources[1], r.sources[2], r.sources[3], r.sources[4]);
    k := if r.sources[0] == 1 then 0
         else if r.sources[1] == 1 then 1
         else if r.sources[2] == 1 then 2
         else if r.sources[3] == 1 then 3
         else 4;
  }

  // ----- a dispatch -----

  lemma RunAllowed(code: int)
    requires 0 <= code <= 3 && Zero(1 * code * (code - 1) * (code - 3))
    ensures code != 2
  {
    if code == 2 { ZeroIsZero(1 * code * (code - 1) * (code - 3)); }
  }

  lemma EqGated(x: int, y: int)
    requires Felt(x) && 0 <= y < 0x1_0000_0000 && Zero(1 * (x - y))
    ensures x == y
  {
    SameColumn(x, y);
  }

  lemma EqZeroColumn(x: int)
    requires Felt(x) && Zero(1 * x)
    ensures x == 0
  {
    ZeroIsZero(x);
  }

  /** A dispatch row belongs to a state that dispatches, and names its interrupt. */
  lemma DispatchClassified(r: MachineColumns, m: Machine) returns (k: nat)
    requires Carries(r, m) && r.Boolean() && ModeIdentities(r) && r.interrupt == 1
    ensures k < 5 && First(m.device, k) && Classify(m) == Ok(Some(Dispatch(Nth(k))))
    ensures r.afterIme == ImeCode(Disabled) && r.afterRun == RunCode(Running) && r.cycles == 5
  {
    hide Zero, PriorityIdentities, SkipIdentities;
    k := SomeSource(r);
    SourceForced(r, m, k);
    FirstIsPending(m.device, k);
    EqGated(r.beforeIme, 2);
    EqZeroColumn(r.afterIme);
    EqZeroColumn(r.afterRun);
    EqGated(r.cycles, 5);
    RunAllowed(r.beforeRun);
  }

  /** Sources other than the first waiting line are clear. */
  lemma OneSource(r: MachineColumns, m: Machine, k: nat)
    requires Carries(r, m) && r.Boolean() && ModeIdentities(r) && r.interrupt == 1 && k < 5 && First(m.device, k)
    ensures VectorColumn(r.sources) == Nth(k).Vector()
  {
    hide Zero, PriorityIdentities, First;
    forall j: nat | j < 5 ensures r.sources[j] == AsBit(j == k) {
      SourceForced(r, m, j);
      OnlyFirst(m.device, j, k);
    }
  }

  lemma OnlyFirst(d: Device, j: nat, k: nat)
    requires j < 5 && k < 5 && First(d, k)
    ensures First(d, j) <==> j == k
  {
  }

  lemma EqStack(x: int, sp: int, drop: int, wrap: int)
    requires 0 <= x < 65536 && 0 <= sp < 65536 && 1 <= drop <= 2 && Bit(wrap)
    requires Zero(1 * (x - sp + drop - 65536 * wrap))
    ensures x == (sp - drop) % 65536 && x == sp - drop + 65536 * wrap
  {
    ZeroIsZero(x - sp + drop - 65536 * wrap);
    DivisionUnique(sp - drop, 65536, -wrap, x);
  }

  lemma EqStackPointer(x: int, sp: int, wrap: int, address: int)
    requires Felt(x) && 0 <= address < 65536 && address == sp - 2 + 65536 * wrap
    requires Zero(1 * (x - sp + 2 - 65536 * wrap))
    ensures x == address
  {
    assert x - sp + 2 - 65536 * wrap == x - address;
    SameColumn(x, address);
  }

  lemma ReturnBytes(pc: int, bits: seq<int>)
    requires |bits| == 16 && Bits(bits) && pc == Packed(bits)
    ensures Packed(bits[8..16]) == pc / 256 && Packed(bits[..8]) == pc % 256 && 0 <= pc < 65536
    ensures 0 <= Packed(bits[8..16]) < 256 && 0 <= Packed(bits[..8]) < 256
  {
    PackedSplit(bits, 8);
    PackedRange(bits[..8]);
    PackedRange(bits[8..]);
    assert bits[8..] == bits[8..16];
    hide Packed, Pow2;
    PowerValues();
    DivisionUnique(pc, 256, Packed(bits[8..16]), Packed(bits[..8]));
  }

  /** Both pushes and the stack pointer of a dispatch row; bus addresses are sixteen-bit columns. */
  lemma PushesForced(r: MachineColumns, m: Machine)
    requires Carries(r, m) && r.Boolean() && InputIdentities(r) && DispatchIdentities(r) && r.interrupt == 1
    requires m.cpu.Valid()
    requires 0 <= r.slots.firstAddress < 65536 && 0 <= r.slots.secondAddress < 65536
    ensures Pushes(m)
            == [Store(r.slots.firstAddress, r.slots.firstValue), Store(r.slots.secondAddress, r.slots.secondValue)]
    ensures r.afterSp == (m.cpu.sp - 2) % 0x10000
  {
    hide Zero, Packed, VectorColumn;
    FlagBits(r);
    PackedRange(r.pcBits);
    PowerValues();
    hide Pow2;
    SameColumn(r.beforePc, Packed(r.pcBits)) by { DifferenceZero(r); }
    ReturnBytes(m.cpu.pc, r.pcBits);
    EqStack(r.slots.firstAddress, m.cpu.sp, 1, r.firstWrap);
    EqStack(r.slots.secondAddress, m.cpu.sp, 2, r.stackWrap);
    EqStackPointer(r.afterSp, m.cpu.sp, r.stackWrap, r.slots.secondAddress);
    EqGated(r.slots.firstValue, m.cpu.pc / 256);
    EqGated(r.slots.secondValue, m.cpu.pc % 256);
  }

  lemma DifferenceZero(r: MachineColumns)
    requires r.Shape() && InputIdentities(r)
    ensures Zero(r.beforePc - Packed(r.pcBits))
  {
  }

  /** A push that lands in memory rather than in the mapper, a register or a closed window. */
  predicate PlainMemory(m: Machine, address: int) {
    OwnerOf(address) == MemoryArea && (ExternalArea(address) ==> m.mapper.External(m.profile, address).Ram?)
  }

  /** The kind columns say which pushes the native step reports as memory writes. */
  predicate CarriesKinds(r: MachineColumns, m: Machine)
    requires r.Shape()
  {
    && r.slots.firstWrite == AsBit(PlainMemory(m, (m.cpu.sp - 1) % 0x10000))
    && r.slots.secondWrite == AsBit(PlainMemory(m, (m.cpu.sp - 2) % 0x10000))
  }

  /** The CPU a dispatch row ends with is the one `dispatch_interrupt` leaves, its pushes are its only bus events, and
      both land in memory. */
  lemma DispatchRowForced(r: MachineColumns, m: Machine) returns (k: nat)
    requires Carries(r, m) && r.BooleanIdentitiesHold() && r.interrupt == 1 && m.cpu.Valid()
    requires ModeIdentities(r) && InputIdentities(r) && DispatchIdentities(r) && KindIdentities(r) && CarriesKinds(r, m)
    requires 0 <= r.slots.firstAddress < 65536 && 0 <= r.slots.secondAddress < 65536
    ensures k < 5 && First(m.device, k) && Classify(m) == Ok(Some(Dispatch(Nth(k))))
    ensures Pushes(m)
            == [Store(r.slots.firstAddress, r.slots.firstValue), Store(r.slots.secondAddress, r.slots.secondValue)]
    ensures r.afterRun == RunCode(Running) && r.afterIme == ImeCode(Disabled) && r.cycles == 5
    ensures r.afterPc == Nth(k).Vector() && r.afterSp == (m.cpu.sp - 2) % 0x10000
    ensures r.slots.others == [0, 0, 0]
    ensures PlainMemory(m, r.slots.firstAddress) && PlainMemory(m, r.slots.secondAddress)
  {
    hide Zero, Packed, ModeIdentities, First, VectorColumn, Classify, Pushes, PlainMemory;
    MachineBits(r);
    k := DispatchClassified(r, m);
    OneSource(r, m, k);
    PushesForced(r, m);
    EqGated(r.afterPc, Nth(k).Vector());
    forall i | 0 <= i < 3 ensures r.slots.others[i] == 0 { EqZeroColumn(r.slots.others[i]); }
    KindsExactly(r, m);
    PushAddresses(m);
  }

  lemma PushAddresses(m: Machine)
    ensures Pushes(m)[0].address == (m.cpu.sp - 1) % 0x10000 && Pushes(m)[1].address == (m.cpu.sp - 2) % 0x10000
  {
  }

  lemma EqKind(write: int, plain: bool)
    requires write == AsBit(plain)
    ensures Zero(write - 1) <==> plain
  {
    if Zero(write - 1) { ZeroIsZero(write - 1); }
  }

  /** The kind columns of a native dispatch meet their identities exactly when both pushes land in memory. */
  lemma KindsExactly(r: MachineColumns, m: Machine)
    requires r.Shape() && r.interrupt == 1 && CarriesKinds(r, m)
    ensures
      Zero(r.slots.firstWrite - r.interrupt) && Zero(r.slots.secondWrite - r.interrupt)
      <==> PlainMemory(m, (m.cpu.sp - 1) % 0x10000) && PlainMemory(m, (m.cpu.sp - 2) % 0x10000)
  {
    hide PlainMemory, Zero;
    EqKind(r.slots.firstWrite, PlainMemory(m, (m.cpu.sp - 1) % 0x10000));
    EqKind(r.slots.secondWrite, PlainMemory(m, (m.cpu.sp - 2) % 0x10000));
  }

  /** So the dispatch that starts a transfer by its low push, though accepted natively, has no satisfying row. */
  lemma EarlyTransferHasNoRow(r: MachineColumns, i: Instruction)
    requires r.Shape() && r.interrupt == 1 && CarriesKinds(r, DmaRun.StackOnFf46())
    ensures Step(DmaRun.StackOnFf46(), i).Ok? && !KindIdentities(r)
  {
    hide Step;
    DmaRun.DispatchOwesEarly(i);
    KindsExactly(r, DmaRun.StackOnFf46());
  }

  // ----- waking and sleeping -----

  lemma EqImeOff(x: int)
    requires 0 <= x <= 2 && Zero(1 * x * (x - 1))
    ensures x != 2
  {
    if x == 2 { ZeroIsZero(1 * x * (x - 1)); }
  }

  /** A wake row belongs to a halted CPU with an interrupt waiting and dispatch off, and costs nothing. */
  lemma WakeRowForced(r: MachineColumns, m: Machine)
    requires Carries(r, m) && r.BooleanIdentitiesHold() && ModeIdentities(r) && r.wake == 1
    ensures Classify(m) == Ok(Some(Wake)) && r.afterRun == RunCode(Running) && r.cycles == 0
  {
    hide Zero, PriorityIdentities, SkipIdentities;
    MachineBits(r);
    FlagBits(r);
    OneMode(r);
    ClearPrefix(r, m, 4);
    NoneIsPending(m.device);
    EqGated(r.beforeRun, 1);
    EqZeroColumn(r.afterRun);
    EqImeOff(r.beforeIme);
    EqZeroColumn(r.clear[4]);
    EqZeroColumn(r.cycles);
  }

  lemma OneMode(r: MachineColumns)
    requires r.Boolean() && Zero(r.Modes() - 1)
    ensures r.Modes() == 1
  {
    FlagBits(r);
    ZeroIsZero(r.Modes() - 1);
  }

  lemma EqFactor(x: int, c: int, k: int)
    requires Felt(c) && 1 <= k <= 6 && Zero(x * (c - k))
    ensures Zero(x) || c == k
  {
    ModulusIsPrime();
    EuclidLemma(P, x, c - k);
    if Zero(c - k) { SameColumn(c, k); }
  }

  /** The product over one to six leaves only those lengths: the field has no zero divisors. */
  lemma IdleLength(c: int)
    requires Felt(c) && Zero(1 * (c - 1) * (c - 2) * (c - 3) * (c - 4) * (c - 5) * (c - 6))
    ensures 1 <= c <= 6
  {
    hide Zero;
    var x1 := 1 * (c - 1);
    var x2 := x1 * (c - 2);
    var x3 := x2 * (c - 3);
    var x4 := x3 * (c - 4);
    var x5 := x4 * (c - 5);
    EqFactor(x5, c, 6);
    if c != 6 { EqFactor(x4, c, 5); }
    if c < 5 || c > 6 { EqFactor(x3, c, 4); }
    if c < 4 || c > 6 { EqFactor(x2, c, 3); }
    if c < 3 || c > 6 { EqFactor(x1, c, 2); }
    if c < 2 || c > 6 { EqFactor(1, c, 1); OneIsNotZero(); }
  }

  lemma OneIsNotZero()
    ensures !Zero(1)
  {
    if Zero(1) { ZeroIsZero(1); }
  }

  /** A sleeping row belongs to a halted CPU with no interrupt waiting: it idles one to six M-cycles, or skips to an
      interrupt that is enabled. */
  lemma SleepRowForced(r: MachineColumns, m: Machine)
    requires Carries(r, m) && r.BooleanIdentitiesHold() && ModeIdentities(r) && r.Sleeping() == 1
    ensures m.cpu.run == Halted && !m.device.Pending()
    ensures Classify(m).Ok? && Classify(m).value.Some?
    ensures Classify(m).value.value.Skip? || Classify(m).value.value.Idle?
    ensures r.idle == 1 ==> 1 <= r.cycles <= 6
    ensures r.untilVBlank == 1 ==> m.device.enable.vblank && !m.device.enable.joypad
    ensures r.untilSerial == 1 ==> m.device.enable.serial
    ensures r.untilTimer == 1 ==> m.device.enable.timer
  {
    hide Zero, PriorityIdentities, SkipIdentities;
    MachineBits(r);
    FlagBits(r);
    ClearPrefix(r, m, 4);
    NoneIsPending(m.device);
    EqGated(r.beforeRun, 1);
    EqGated(r.clear[4], 1);
    SkipForced(r, m);
  }

  lemma SkipForced(r: MachineColumns, m: Machine)
    requires Carries(r, m) && SkipIdentities(r)
    ensures r.idle == 1 ==> 1 <= r.cycles <= 6
    ensures r.untilVBlank == 1 ==> m.device.enable.vblank && !m.device.enable.joypad
    ensures r.untilSerial == 1 ==> m.device.enable.serial
    ensures r.untilTimer == 1 ==> m.device.enable.timer
  {
    hide Zero;
    EnableColumns(r, m);
    if r.idle == 1 { IdleLength(r.cycles); }
    if r.untilVBlank == 1 { EqGated(r.enables[0], 1); EqZeroColumn(r.enables[4]); }
    if r.untilSerial == 1 { EqGated(r.enables[3], 1); }
    if r.untilTimer == 1 { EqGated(r.enables[2], 1); }
  }

  lemma EnableColumns(r: MachineColumns, m: Machine)
    requires Carries(r, m)
    ensures r.enables[0] == AsBit(m.device.enable.vblank) && r.enables[4] == AsBit(m.device.enable.joypad)
    ensures r.enables[2] == AsBit(m.device.enable.timer) && r.enables[3] == AsBit(m.device.enable.serial)
  {
    assert Line(m.device.enable, 0) == m.device.enable.vblank && Line(m.device.enable, 2) == m.device.enable.timer;
    assert Line(m.device.enable, 3) == m.device.enable.serial && Line(m.device.enable, 4) == m.device.enable.joypad;
  }

  // ----- the CPU and the bus -----

  lemma EqKept(selected: int, x: int, y: int)
    requires selected == 1 && Felt(x) && Felt(y) && Zero(selected * (x - y))
    ensures x == y
  {
    SameColumn(x, y);
  }

  lemma OneGate(r: MachineColumns)
    requires r.Shape() && r.Boolean() && ModeIdentities(r)
    ensures Bit(r.Sleeping()) && Bit(r.Sleeping() + r.dmaByte) && Bit(r.wake) && Bit(r.interrupt)
    ensures Bit(r.Sleeping() + r.wake) && Bit(r.idle + r.interrupt)
    ensures (r.Sleeping() + r.dmaByte) + r.wake + r.interrupt == 1
  {
    hide Zero, PriorityIdentities, SkipIdentities;
    FlagBits(r);
    OneMode(r);
  }

  lemma RegistersForced(r: MachineColumns)
    requires r.Shape() && r.Boolean() && ModeIdentities(r) && KeptIdentities(r)
    ensures r.kept.registersAfter == r.kept.registers && r.kept.flowAfter == r.kept.flow
  {
    hide Zero, PriorityIdentities, SkipIdentities, ModeIdentities;
    OneGate(r);
    var k := r.kept;
    forall i | 0 <= i < 8 ensures k.registersAfter[i] == k.registers[i] && k.flowAfter[i] == k.flow[i] {
      SameColumn(k.flowAfter[i], k.flow[i]);
      if r.interrupt == 1 { EqKept(r.interrupt, k.registersAfter[i], k.registers[i]); }
      else if r.wake == 1 { EqKept(r.wake, k.registersAfter[i], k.registers[i]); }
      else { EqKept(r.Sleeping() + r.dmaByte, k.registersAfter[i], k.registers[i]); }
    }
  }

  lemma PassiveForced(r: MachineColumns)
    requires r.Shape() && r.Boolean() && ModeIdentities(r) && KeptIdentities(r) && r.interrupt == 0
    ensures r.afterPc == r.beforePc && r.afterSp == r.beforeSp && r.afterIme == r.beforeIme
    ensures r.wake == 0 ==> r.afterRun == r.beforeRun
  {
    hide Zero, PriorityIdentities, SkipIdentities, ModeIdentities;
    OneGate(r);
    if r.wake == 1 {
      EqKept(r.wake, r.afterPc, r.beforePc);
      EqKept(r.wake, r.afterSp, r.beforeSp);
      EqKept(r.wake, r.afterIme, r.beforeIme);
    } else {
      var passive := r.Sleeping() + r.dmaByte;
      EqKept(passive, r.afterPc, r.beforePc);
      EqKept(passive, r.afterSp, r.beforeSp);
      EqKept(passive, r.afterIme, r.beforeIme);
      EqKept(passive, r.afterRun, r.beforeRun);
    }
  }

  lemma BusFree(r: MachineColumns)
    requires r.Shape() && r.Boolean() && ModeIdentities(r) && KeptIdentities(r) && r.Sleeping() + r.wake == 1
    ensures r.kept.active == [0, 0, 0, 0, 0]
  {
    hide Zero, PriorityIdentities, SkipIdentities, ModeIdentities;
    forall i | 0 <= i < 5 ensures r.kept.active[i] == 0 { EqZeroColumn(r.kept.active[i]); }
  }

  /** A dispatch has its five short cycles, an idle batch as many as it takes, any other machine row none. */
  lemma ShortForced(r: MachineColumns)
    requires r.Shape() && r.Boolean() && ModeIdentities(r) && KeptIdentities(r)
    ensures ActivePrefix(r.kept.short, if r.idle + r.interrupt == 1 then r.cycles else 0)
    ensures r.interrupt == 1 ==> r.cycles == 5
  {
    hide Zero, PriorityIdentities, SkipIdentities;
    OneGate(r);
    var k := r.kept.short;
    SumBound(k);
    if r.interrupt == 1 { EqGated(r.cycles, 5); }
    if r.idle + r.interrupt == 1 {
      SameColumn(Sum(k), r.cycles);
    } else {
      SameColumn(Sum(k), 0);
    }
    forall i | 0 <= i < 5 ensures k[i + 1] == 1 ==> k[i] == 1 { EqPrefix(k[i], k[i + 1]); }
    PrefixLength(k);
  }

  lemma SumBound(s: seq<int>)
    requires |s| == 6 && Bits(s)
    ensures 0 <= Sum(s) <= 6
  {
  }

  /** The CPU the native machine event leaves, and that its registers and the bus are untouched otherwise. */
  lemma CpuForced(r: MachineColumns, m: Machine)
    requires Carries(r, m) && r.BooleanIdentitiesHold() && ModeIdentities(r) && KeptIdentities(r) && r.interrupt == 0
    ensures r.kept.registersAfter == r.kept.registers && r.kept.flowAfter == r.kept.flow
    ensures
      var cpu := if r.wake == 1 then m.cpu.(run := Running) else m.cpu;
      && r.afterPc == cpu.pc && r.afterSp == cpu.sp && r.afterIme == ImeCode(cpu.ime) && r.afterRun == RunCode(cpu.run)
    ensures r.dmaByte == 0 ==> r.kept.active == [0, 0, 0, 0, 0]
  {
    hide Zero, PriorityIdentities, SkipIdentities, ModeIdentities, KeptIdentities,
         MachineColumns.BooleanIdentitiesHold, Classify;
    MachineBits(r);
    OneGate(r);
    RegistersForced(r);
    PassiveForced(r);
    if r.wake == 1 { WakeRowForced(r, m); }
    if r.dmaByte == 0 { BusFree(r); }
  }

  /** A row has exactly one of the three kinds, or copies a DMA byte. */
  lemma ModesExclusive(r: MachineColumns)
    requires r.Shape() && r.BooleanIdentitiesHold() && ModeIdentities(r)
    ensures r.interrupt + r.wake + r.Sleeping() + r.dmaByte == 1
  {
    hide Zero, PriorityIdentities, SkipIdentities;
    MachineBits(r);
    FlagBits(r);
    OneMode(r);
  }
}
