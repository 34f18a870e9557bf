/** The staged timer relation of a packed row: 24 constrained T-cycles pin down the iterated timer rule. */
module TimerRow {

  import opened Field
  import opened Gadgets
  import opened Timer

  /** Bit columns of one timer state; `interrupt` is IF bit 2. */
  datatype Columns = Columns(div: seq<int>, counter: seq<int>, phase: seq<int>, latch: int, interrupt: int) {
    predicate Shape() { |div| == 16 && |counter| == 8 && |phase| == 3 }
    predicate Boolean() { Bits(div) && Bits(counter) && Bits(phase) && Bit(latch) && Bit(interrupt) }
    function All(): seq<int> { div + counter + phase + [latch, interrupt] }
  }

  /** Columns of one T-cycle stage: the next state, the reload intermediate, divider wrap and counter overflow. */
  datatype Stage = Stage(next: Columns, reloadCounter: seq<int>, reloadPhase: seq<int>, wrap: int, overflow: int) {
    predicate Shape() { next.Shape() && |reloadCounter| == 8 && |reloadPhase| == 3 }
    function All(): seq<int>
    {
      next.div + next.counter + next.phase + [next.latch, next.interrupt] + reloadCounter + reloadPhase
        + [wrap, overflow]
    }
  }

  /** TAC bits (two select bits and the enable bit) and TMA bits, constant over a quiet row. */
  datatype Setup = Setup(control: seq<int>, modulo: seq<int>) {
    predicate Shape() { |control| == 3 && |modulo| == 8 && Bits(control) && Bits(modulo) }
  }

  function PhaseFive(b: seq<int>): int
    requires |b| == 3
  {
    b[0] * (1 - b[1]) * b[2]
  }

  function PhaseZero(b: seq<int>): int
    requires |b| == 3
  {
    (1 - b[0]) * (1 - b[1]) * (1 - b[2])
  }

  /** The selected divider bit after the tick, gated by the enable bit. */
  function Detector(c: Setup, div: seq<int>): int
    requires c.Shape() && |div| == 16
  {
    Select(c.control[0], c.control[1], c.control[2], div[9], div[3], div[5], div[7])
  }

  function Select(zero: int, one: int, enabled: int, slow: int, fastest: int, medium: int, fast: int): int {
    enabled
      * ((1 - zero) * (1 - one) * slow + zero * (1 - one) * fastest + (1 - zero) * one * medium + zero * one * fast)
  }

  lemma SelectCases(zero: int, one: int, enabled: int, slow: int, fastest: int, medium: int, fast: int)
    requires Bit(zero) && Bit(one) && Bit(enabled)
    ensures Select(zero, one, enabled, slow, fastest, medium, fast) ==
            if enabled == 0 then 0
            else if one == 0 then (if zero == 0 then slow else fastest)
            else if zero == 0 then medium else fast
  {
    if enabled == 1 && zero == 0 && one == 0 {}
    else if enabled == 1 && zero == 1 && one == 0 {}
    else if enabled == 1 && zero == 0 && one == 1 {}
  }

  /** The values one tick's identities speak about. */
  datatype Scalars = Scalars(
    div: int, counter: int, phase: int, latch: int, interrupt: int, five: int, zero: int, modulo: int, detector: int,
    reloadCounter: int, reloadPhase: int, wrap: int, overflow: int,
    div': int, counter': int, phase': int, latch': int, interrupt': int)

  function TickScalars(c: Setup, now: Columns, s: Stage): Scalars
    requires c.Shape() && now.Shape() && s.Shape()
  {
    Scalars(Packed(now.div), Packed(now.counter), Packed(now.phase), now.latch, now.interrupt,
            PhaseFive(now.phase), PhaseZero(now.phase), Packed(c.modulo), Detector(c, s.next.div),
            Packed(s.reloadCounter), Packed(s.reloadPhase), s.wrap, s.overflow,
            Packed(s.next.div), Packed(s.next.counter), Packed(s.next.phase), s.next.latch, s.next.interrupt)
  }

  // The ten transition identities of one tick, each guarded by the quiet selector.

  predicate ReloadCounterIdentity(quiet: int, active: int, v: Scalars) {
    Zero(quiet * (v.reloadCounter - v.counter - v.five * (v.modulo - v.counter)))
  }

  predicate ReloadPhaseIdentity(quiet: int, active: int, v: Scalars) {
    Zero(quiet * (v.reloadPhase - v.phase - (1 - v.zero) * (1 - v.five) + v.five * v.phase))
  }

  predicate WrapIdentity(quiet: int, active: int, v: Scalars) {
    Zero(quiet * (v.wrap * (1 - active)))
  }

  predicate OverflowIdentity(quiet: int, active: int, v: Scalars) {
    Zero(quiet * (v.overflow * (1 - active)))
  }

  predicate EdgeIdentity(quiet: int, active: int, v: Scalars) {
    Zero(quiet * (v.overflow * (1 - v.latch * (1 - v.detector))))
  }

  predicate DividerIdentity(quiet: int, active: int, v: Scalars) {
    Zero(quiet * (v.div' - v.div - active + 65536 * active * v.wrap))
  }

  predicate CounterIdentity(quiet: int, active: int, v: Scalars) {
    Zero(quiet
         * (v.counter' - v.counter
            - active * (v.reloadCounter - v.counter + v.latch * (1 - v.detector) - 256 * v.overflow)))
  }

  predicate PhaseIdentity(quiet: int, active: int, v: Scalars) {
    Zero(quiet * (v.phase' - v.phase - active * (v.reloadPhase - v.phase + v.overflow * (1 - v.reloadPhase))))
  }

  predicate LatchIdentity(quiet: int, active: int, v: Scalars) {
    Zero(quiet * (v.latch' - v.latch - active * (v.detector - v.latch)))
  }

  predicate InterruptIdentity(quiet: int, active: int, v: Scalars) {
    Zero(quiet * (v.interrupt' - v.interrupt - active * (1 - v.interrupt) * v.five))
  }

  predicate TransitionIdentities(quiet: int, active: int, v: Scalars) {
    && ReloadCounterIdentity(quiet, active, v)
    && ReloadPhaseIdentity(quiet, active, v)
    && WrapIdentity(quiet, active, v)
    && OverflowIdentity(quiet, active, v)
    && EdgeIdentity(quiet, active, v)
    && DividerIdentity(quiet, active, v)
    && CounterIdentity(quiet, active, v)
    && PhaseIdentity(quiet, active, v)
    && LatchIdentity(quiet, active, v)
    && InterruptIdentity(quiet, active, v)
  }

  /** The twelve identities of one tick: two phase ranges and the transition. */
  predicate TickIdentities(quiet: int, c: Setup, active: int, now: Columns, s: Stage)
    requires c.Shape() && now.Shape() && s.Shape()
  {
    && Zero(quiet * s.next.phase[2] * s.next.phase[1])
    && Zero(quiet * s.reloadPhase[2] * s.reloadPhase[1])
    && TransitionIdentities(quiet, active, TickScalars(c, now, s))
  }

  function Decode(c: Setup, s: Columns): TimerState
  {
    TimerState(Packed(s.div), Packed(s.counter), Packed(c.modulo), Packed(c.control), s.latch == 1, Packed(s.phase))
  }

  // ----- one tick -----

  lemma ColumnRanges(c: Setup, s: Columns)
    requires c.Shape() && s.Shape() && s.Boolean()
    ensures 0 <= Packed(s.div) < 65536 && 0 <= Packed(s.counter) < 256 && 0 <= Packed(s.phase) < 8
    ensures 0 <= Packed(c.modulo) < 256 && 0 <= Packed(c.control) < 8
    ensures Packed(c.control) == c.control[0] + 2 * c.control[1] + 4 * c.control[2]
    ensures Packed(s.phase) == s.phase[0] + 2 * s.phase[1] + 4 * s.phase[2]
  {
    PackedRange(s.div);
    PackedRange(s.counter);
    PackedRange(c.modulo);
    PowerValues();
    Packed3(s.phase);
    Packed3(c.control);
  }

  lemma DivBit(div: seq<int>, k: nat, w: int)
    requires |div| == 16 && Bits(div) && k < 16 && w == Pow2(k)
    ensures w > 0 && Packed(div) / w % 2 == div[k]
  {
    PackedBit(div, k);
  }

  lemma DetectorBits(t: TimerState, zero: int, one: int, enabled: int, slow: int, fastest: int, medium: int, fast: int)
    requires Bit(zero) && Bit(one) && Bit(enabled) && t.control == zero + 2 * one + 4 * enabled
    requires t.rawDiv / 512 % 2 == slow && t.rawDiv / 8 % 2 == fastest && t.rawDiv / 32 % 2 == medium
    requires t.rawDiv / 128 % 2 == fast
    ensures Select(zero, one, enabled, slow, fastest, medium, fast) == AsBit(t.DetectorInput())
  {
    SelectCases(zero, one, enabled, slow, fastest, medium, fast);
    hide Select;
    if enabled == 0 { assert t.control < 4; }
    else if zero == 0 && one == 0 { assert t.control == 4; }
    else if zero == 1 && one == 0 { assert t.control == 5; }
    else if zero == 0 { assert t.control == 6; }
    else { assert t.control == 7; }
  }

  /** The detector column is the timer's detector input on the stepped divider. */
  lemma DetectorColumn(c: Setup, s: Columns)
    requires c.Shape() && s.Shape() && s.Boolean()
    ensures Detector(c, s.div) == AsBit(Decode(c, s).DetectorInput())
  {
    DivBit(s.div, 9, 512);
    DivBit(s.div, 3, 8);
    DivBit(s.div, 5, 32);
    DivBit(s.div, 7, 128);
    Packed3(c.control);
    hide Packed, Pow2, Select, TimerState.DetectorInput;
    DetectorBits(Decode(c, s), c.control[0], c.control[1], c.control[2], s.div[9], s.div[3], s.div[5], s.div[7]);
  }

  lemma PhaseColumns(c: Setup, s: Columns)
    requires c.Shape() && s.Shape() && s.Boolean()
    ensures PhaseFive(s.phase) == AsBit(Packed(s.phase) == 5)
    ensures PhaseZero(s.phase) == AsBit(Packed(s.phase) == 0)
    ensures s.phase[2] * s.phase[1] == 0 <==> Packed(s.phase) <= 5
  {
    Packed3(s.phase);
  }

  // Each identity on its own, over small integers.

  lemma EqBits(x: int, y: int)
    requires Bit(x) && Bit(y) && Zero(1 * x * y)
    ensures x * y == 0
  {
    ZeroIsZero(x * y);
  }

  lemma EqReloadCounter(active: int, v: Scalars)
    requires Bit(active) && ScalarRanges(v) && ReloadCounterIdentity(1, active, v)
    ensures v.reloadCounter == if v.phase == 5 then v.modulo else v.counter
  {
    ZeroIsZero(v.reloadCounter - v.counter - v.five * (v.modulo - v.counter));
  }

  lemma EqReloadPhase(active: int, v: Scalars)
    requires Bit(active) && ScalarRanges(v) && ReloadPhaseIdentity(1, active, v)
    ensures v.reloadPhase == if v.phase == 5 || v.phase == 0 then 0 else v.phase + 1
  {
    ZeroIsZero(v.reloadPhase - v.phase - (1 - v.zero) * (1 - v.five) + v.five * v.phase);
  }

  lemma EqWrap(active: int, v: Scalars)
    requires Bit(active) && ScalarRanges(v) && WrapIdentity(1, active, v)
    ensures v.wrap == 0 || active == 1
  {
    ZeroIsZero(v.wrap * (1 - active));
  }

  lemma EqOverflow(active: int, v: Scalars)
    requires Bit(active) && ScalarRanges(v) && OverflowIdentity(1, active, v)
    ensures v.overflow == 0 || active == 1
  {
    ZeroIsZero(v.overflow * (1 - active));
  }

  lemma EqEdge(active: int, v: Scalars)
    requires Bit(active) && ScalarRanges(v) && EdgeIdentity(1, active, v)
    ensures v.overflow == 0 || (v.latch == 1 && v.detector == 0)
  {
    ZeroIsZero(v.overflow * (1 - v.latch * (1 - v.detector)));
  }

  lemma EqDivider(active: int, v: Scalars)
    requires Bit(active) && ScalarRanges(v) && DividerIdentity(1, active, v)
    ensures v.div' == v.div + (if active == 0 then 0 else 1 - 65536 * v.wrap)
  {
    ZeroIsZero(v.div' - v.div - active + 65536 * active * v.wrap);
  }

  lemma EqCounter(active: int, v: Scalars)
    requires Bit(active) && ScalarRanges(v) && CounterIdentity(1, active, v)
    ensures v.counter' == if active == 0 then v.counter
            else v.reloadCounter + (if v.latch == 1 && v.detector == 0 then 1 else 0) - 256 * v.overflow
  {
    ZeroIsZero(v.counter' - v.counter
               - active * (v.reloadCounter - v.counter + v.latch * (1 - v.detector) - 256 * v.overflow));
  }

  lemma EqPhase(active: int, v: Scalars)
    requires Bit(active) && ScalarRanges(v) && PhaseIdentity(1, active, v)
    ensures v.phase' == if active == 0 then v.phase else if v.overflow == 1 then 1 else v.reloadPhase
  {
    ZeroIsZero(v.phase' - v.phase - active * (v.reloadPhase - v.phase + v.overflow * (1 - v.reloadPhase)));
  }

  lemma EqLatch(active: int, v: Scalars)
    requires Bit(active) && ScalarRanges(v) && LatchIdentity(1, active, v)
    ensures v.latch' == if active == 0 then v.latch else v.detector
  {
    ZeroIsZero(v.latch' - v.latch - active * (v.detector - v.latch));
  }

  lemma EqInterrupt(active: int, v: Scalars)
    requires Bit(active) && ScalarRanges(v) && InterruptIdentity(1, active, v)
    ensures v.interrupt' == if active == 1 && v.phase == 5 then 1 else v.interrupt
  {
    ZeroIsZero(v.interrupt' - v.interrupt - active * (1 - v.interrupt) * v.five);
  }

  predicate ScalarRanges(v: Scalars) {
    && 0 <= v.div < 65536 && 0 <= v.div' < 65536
    && 0 <= v.counter < 256 && 0 <= v.counter' < 256 && 0 <= v.reloadCounter < 256 && 0 <= v.modulo < 256
    && 0 <= v.phase <= 5 && 0 <= v.phase' < 8 && 0 <= v.reloadPhase < 8
    && Bit(v.latch) && Bit(v.latch') && Bit(v.interrupt) && Bit(v.interrupt') && Bit(v.detector)
    && Bit(v.wrap) && Bit(v.overflow) && v.five == AsBit(v.phase == 5) && v.zero == AsBit(v.phase == 0)
  }

  /** What the identities force, in order: the reload intermediate, then divider, counter, phase, latch, interrupt. */
  lemma ScalarsForced(active: int, v: Scalars)
    requires Bit(active) && ScalarRanges(v) && TransitionIdentities(1, active, v)
    ensures active == 0 ==> v.div' == v.div && v.counter' == v.counter && v.phase' == v.phase && v.latch' == v.latch
                            && v.interrupt' == v.interrupt
    ensures active == 1 ==>
      var reloadCounter := if v.phase == 5 then v.modulo else v.counter;
      var reloadPhase := if v.phase == 5 || v.phase == 0 then 0 else v.phase + 1;
      var falling := v.latch == 1 && v.detector == 0;
      && v.div' == (if v.div == 65535 then 0 else v.div + 1)
      && v.counter' == (if !falling then reloadCounter else if reloadCounter == 255 then 0 else reloadCounter + 1)
      && v.phase' == (if falling && reloadCounter == 255 then 1 else reloadPhase)
      && v.latch' == v.detector
      && v.interrupt' == (if v.phase == 5 then 1 else v.interrupt)
  {
    hide ReloadCounterIdentity, ReloadPhaseIdentity, WrapIdentity, OverflowIdentity, EdgeIdentity, DividerIdentity,
         CounterIdentity, PhaseIdentity, LatchIdentity, InterruptIdentity;
    EqReloadCounter(active, v);
    EqReloadPhase(active, v);
    EqWrap(active, v);
    EqOverflow(active, v);
    EqEdge(active, v);
    EqDivider(active, v);
    EqCounter(active, v);
    EqPhase(active, v);
    EqLatch(active, v);
    EqInterrupt(active, v);
  }

  lemma ScalarsInRange(c: Setup, now: Columns, s: Stage)
    requires c.Shape() && now.Shape() && s.Shape() && now.Boolean() && s.next.Boolean()
    requires Bits(s.reloadCounter) && Bits(s.reloadPhase) && Bit(s.wrap) && Bit(s.overflow) && Packed(now.phase) <= 5
    ensures ScalarRanges(TickScalars(c, now, s))
  {
    hide Packed, Detector, PhaseFive, PhaseZero, Pow2;
    ColumnRanges(c, now);
    ColumnRanges(c, s.next);
    PackedRange(s.reloadCounter);
    Packed3(s.reloadPhase);
    PowerValues();
    PhaseColumns(c, now);
    DetectorColumn(c, s.next);
  }

  /** One constrained tick is one timer T-cycle, or nothing when the cycle is inactive. */
  lemma TickSound(c: Setup, active: int, now: Columns, s: Stage)
    requires c.Shape() && now.Shape() && s.Shape() && now.Boolean() && BooleanIdentities(s.All()) && Bit(active)
    requires Packed(now.phase) <= 5 && TickIdentities(1, c, active, now, s)
    ensures s.next.Boolean() && Packed(s.next.phase) <= 5 && Decode(c, now).Valid()
    ensures Decode(c, s.next) == if active == 1 then Decode(c, now).Tick() else Decode(c, now)
    ensures s.next.interrupt == if active == 1 && Decode(c, now).Requests() then 1 else now.interrupt
  {
    hide Packed, Detector, PhaseFive, PhaseZero, Bits, Zero, TransitionIdentities, TimerState.DetectorInput,
         TimerState.Tick, BooleanIdentities, Stage.All, ScalarRanges;
    StageBits(s);
    PhaseInRange(c, s.next);
    ColumnRanges(c, now);
    ScalarsInRange(c, now, s);
    DetectorColumn(c, s.next);
    ScalarsTick(active, TickScalars(c, now, s), Decode(c, now), Decode(c, s.next));
  }

  lemma PhaseInRange(c: Setup, s: Columns)
    requires c.Shape() && s.Shape() && s.Boolean() && Zero(1 * s.phase[2] * s.phase[1])
    ensures Packed(s.phase) <= 5
  {
    EqBits(s.phase[2], s.phase[1]);
    PhaseColumns(c, s);
  }

  lemma ScalarsTick(active: int, v: Scalars, t: TimerState, u: TimerState)
    requires Bit(active) && ScalarRanges(v) && TransitionIdentities(1, active, v)
    requires t == TimerState(v.div, v.counter, v.modulo, t.control, v.latch == 1, v.phase)
    requires u == TimerState(v.div', v.counter', v.modulo, t.control, v.latch' == 1, v.phase')
    requires v.detector == AsBit(u.DetectorInput())
    ensures u == if active == 1 then t.Tick() else t
    ensures v.interrupt' == if active == 1 && t.Requests() then 1 else v.interrupt
  {
    hide TransitionIdentities, TimerState.DetectorInput;
    ScalarsForced(active, v);
    if active == 1 {
      SameDetector(t, u);
    }
  }

  lemma SameDetector(t: TimerState, u: TimerState)
    requires u.rawDiv == (if t.rawDiv == 0xffff then 0 else t.rawDiv + 1) && u.control == t.control
    ensures t.AdvanceReload().(rawDiv := u.rawDiv).DetectorInput() == u.DetectorInput()
  {
  }

  lemma StageBits(s: Stage)
    requires s.Shape() && BooleanIdentities(s.All())
    ensures s.next.Boolean() && Bits(s.reloadCounter) && Bits(s.reloadPhase) && Bit(s.wrap) && Bit(s.overflow)
  {
    var all := s.All();
    BooleanColumns(all);
    assert s.next.div == all[0..16] && s.next.counter == all[16..24] && s.next.phase == all[24..27];
    assert s.reloadCounter == all[29..37] && s.reloadPhase == all[37..40];
    assert s.next.latch == all[27] && s.next.interrupt == all[28] && s.wrap == all[40] && s.overflow == all[41];
  }

  lemma ColumnBits(s: Columns)
    requires s.Shape() && BooleanIdentities(s.All())
    ensures s.Boolean()
  {
    var all := s.All();
    BooleanColumns(all);
    assert s.div == all[0..16] && s.counter == all[16..24] && s.phase == all[24..27] && s.latch == all[27]
      && s.interrupt == all[28];
  }

  // ----- the whole row -----

  /** One quiet row: selector, constant registers, before columns, 24 stages, per-M-cycle activity, boundary columns. */
  datatype Row = Row(
    quiet: int, setup: Setup, before: Columns, stages: seq<Stage>, cycleActive: seq<int>,
    beforeCounter: int, beforePhase: int, beforeLatch: int,
    afterDiv: int, afterCounter: int, afterPhase: int, afterLatch: int, afterInterrupt: int)
  {
    predicate Shape() {
      && setup.Shape() && before.Shape() && |stages| == 24 && |cycleActive| == 6
      && (forall i :: 0 <= i < 24 ==> stages[i].Shape())
      && Felt(beforeCounter) && Felt(beforePhase) && Felt(beforeLatch)
      && Felt(afterDiv) && Felt(afterCounter) && Felt(afterPhase) && Felt(afterLatch) && Felt(afterInterrupt)
    }

    /** The state a tick starts from: the before columns, then each stage in turn. */
    function Current(tick: nat): Columns
      requires Shape() && tick <= 24
    {
      if tick == 0 then before else stages[tick - 1].next
    }

    predicate InitialIdentities()
      requires Shape()
    {
      && Zero(quiet * (beforeCounter - Packed(before.counter)))
      && Zero(quiet * (beforePhase - Packed(before.phase)))
      && Zero(quiet * (beforeLatch - before.latch))
      && Zero(quiet * before.phase[2] * before.phase[1])
    }

    predicate FinalIdentities()
      requires Shape()
    {
      var last := stages[23].next;
      && Zero(quiet * (Packed(last.div) - afterDiv))
      && Zero(quiet * (Packed(last.counter) - afterCounter))
      && Zero(quiet * (Packed(last.phase) - afterPhase))
      && Zero(quiet * (last.latch - afterLatch))
      && Zero(quiet * (last.interrupt - afterInterrupt))
    }

    predicate Identities()
      requires Shape()
    {
      && BooleanIdentities(before.All())
      && (forall i :: 0 <= i < 24 ==> BooleanIdentities(stages[i].All()))
      && InitialIdentities()
      && (forall i: nat :: i < 24 ==> TickIdentities(quiet, setup, cycleActive[i / 4], Current(i), stages[i]))
      && FinalIdentities()
    }

    /** The timer before the row, read from the boundary columns. */
    function TimerBefore(): TimerState
    {
      TimerState(Packed(before.div), beforeCounter, Packed(setup.modulo), Packed(setup.control), beforeLatch == 1,
                 beforePhase)
    }

    function TimerAfter(): TimerState
    {
      TimerState(afterDiv, afterCounter, Packed(setup.modulo), Packed(setup.control), afterLatch == 1, afterPhase)
    }
  }

  /** The first `c` M-cycles are active and the others are not. */
  lemma InitialState(r: Row)
    requires r.Shape() && r.quiet == 1 && r.Identities()
    ensures Decode(r.setup, r.before) == r.TimerBefore() && Packed(r.before.phase) <= 5
    ensures r.TimerBefore().Valid() && r.before.Boolean()
  {
    hide Packed, TickIdentities, BooleanIdentities, Bits, Zero, Columns.All;
    ColumnBits(r.before);
    ColumnRanges(r.setup, r.before);
    PhaseInRange(r.setup, r.before);
    SameColumn(r.beforeCounter, Packed(r.before.counter));
    SameColumn(r.beforePhase, Packed(r.before.phase));
    SameColumn(r.beforeLatch, r.before.latch);
  }

  /** Ticks the first `n` stages perform. */
  function ActiveTicks(c: nat, n: nat): nat { if n < 4 * c then n else 4 * c }

  /** What the row says about stage `n`. */
  lemma StageIdentities(r: Row, c: nat, n: nat)
    requires r.Shape() && r.Identities() && ActivePrefix(r.cycleActive, c) && n < 24
    ensures r.cycleActive[n / 4] == AsBit(n < 4 * c)
    ensures TickIdentities(r.quiet, r.setup, AsBit(n < 4 * c), r.Current(n), r.stages[n])
    ensures BooleanIdentities(r.stages[n].All())
  {
    hide TickIdentities, BooleanIdentities, Row.InitialIdentities, Row.FinalIdentities, Bits;
    assert n / 4 < c <==> n < 4 * c;
  }

  lemma NextTicks(t: TimerState, c: nat, n: nat)
    requires n > 0
    ensures
      var u := Ticks(t, ActiveTicks(c, n - 1));
      && Ticks(t, ActiveTicks(c, n)) == (if n - 1 < 4 * c then u.Tick() else u)
      && (Requested(t, ActiveTicks(c, n)) <==> Requested(t, ActiveTicks(c, n - 1)) || (n - 1 < 4 * c && u.Requests()))
  {
    hide TimerState.Tick;
  }

  lemma {:induction false} ChainSound(r: Row, c: nat, n: nat)
    requires r.Shape() && r.quiet == 1 && r.Identities() && ActivePrefix(r.cycleActive, c) && n <= 24
    ensures r.Current(n).Boolean() && Packed(r.Current(n).phase) <= 5
    ensures Decode(r.setup, r.Current(n)) == Ticks(r.TimerBefore(), ActiveTicks(c, n))
    ensures r.Current(n).interrupt == AsBit(r.before.interrupt == 1 || Requested(r.TimerBefore(), ActiveTicks(c, n)))
  {
    if n == 0 {
      hide Packed, TickIdentities, BooleanIdentities, Decode, Row.InitialIdentities, Row.FinalIdentities, Bits, Zero;
      InitialState(r);
    } else {
      hide Packed, TickIdentities, BooleanIdentities, TimerState.Tick, Decode, Row.Identities, Bits, Zero, Ticks,
           Requested, ActiveTicks, ActivePrefix;
      ChainSound(r, c, n - 1);
      StageIdentities(r, c, n - 1);
      NextTicks(r.TimerBefore(), c, n);
      TickSound(r.setup, AsBit(n - 1 < 4 * c), r.Current(n - 1), r.stages[n - 1]);
    }
  }

  /** Any satisfying quiet row performs exactly `4 * c` timer T-cycles: every field and the interrupt bit are forced. */
  lemma TimerRowSound(r: Row, c: nat)
    requires r.Shape() && r.quiet == 1 && r.Identities() && ActivePrefix(r.cycleActive, c)
    ensures r.TimerAfter() == Ticks(r.TimerBefore(), 4 * c)
    ensures r.afterInterrupt == AsBit(r.before.interrupt == 1 || Requested(r.TimerBefore(), 4 * c))
  {
    hide Packed, TickIdentities, BooleanIdentities, TimerState.Tick, Ticks, Requested, Bits, Zero,
         Row.InitialIdentities;
    var n := 24;
    ChainSound(r, c, n);
    var last := r.stages[23].next;
    assert r.Current(n) == last && ActiveTicks(c, n) == 4 * c;
    ColumnRanges(r.setup, last);
    SameColumn(Packed(last.div), r.afterDiv);
    SameColumn(Packed(last.counter), r.afterCounter);
    SameColumn(Packed(last.phase), r.afterPhase);
    SameColumn(last.latch, r.afterLatch);
    SameColumn(last.interrupt, r.afterInterrupt);
  }

  /** Two satisfying rows with the same start and the same activity end alike. */
  lemma TimerRowUnique(r: Row, q: Row, c: nat)
    requires r.Shape() && r.quiet == 1 && r.Identities() && ActivePrefix(r.cycleActive, c)
    requires q.Shape() && q.quiet == 1 && q.Identities() && ActivePrefix(q.cycleActive, c)
    requires r.TimerBefore() == q.TimerBefore() && r.before.interrupt == q.before.interrupt
    ensures r.TimerAfter() == q.TimerAfter() && r.afterInterrupt == q.afterInterrupt
  {
    hide *;
    TimerRowSound(r, c);
    TimerRowSound(q, c);
  }
}
