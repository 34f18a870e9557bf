/** The closed-form timer identities of a long HALT row. */
module LongTimerRow {

  import opened Modulus
  import opened Field
  import opened Timer
  import opened TimerRow

  datatype LongRow = LongRow(
    setup: Setup, div: seq<int>, divAfter: seq<int>, quotient: seq<int>, counter: seq<int>, counterAfter: seq<int>,
    phase: int, phaseAfter: int, latch: int, latchAfter: int, requestBefore: int, requestAfter: int, gap: seq<int>,
    cycles: int)
  {
    predicate Shape() {
      && setup.Shape() && |div| == 16 && |divAfter| == 16 && |quotient| == 5 && |counter| == 8 && |counterAfter| == 8
      && |gap| == 2
      && Felt(phase) && Felt(phaseAfter) && Felt(latch) && Felt(latchAfter) && Felt(cycles)
    }

    predicate Boolean() {
      && Bits(div) && Bits(divAfter) && Bits(quotient) && Bits(counter) && Bits(counterAfter) && Bits(gap)
      && Bits([requestBefore, requestAfter])
    }

    predicate BooleanIdentitiesHold() {
      && BooleanIdentities(div) && BooleanIdentities(divAfter) && BooleanIdentities(quotient)
      && BooleanIdentities(counter)
      && BooleanIdentities(counterAfter) && BooleanIdentities(gap) && BooleanIdentities([requestBefore, requestAfter])
    }

    function Before(): TimerState {
      TimerState(Packed(div), Packed(counter), Packed(setup.modulo), Packed(setup.control), latch == 1, phase)
    }

    function After(): TimerState {
      TimerState(Packed(divAfter), Packed(counterAfter), Packed(setup.modulo), Packed(setup.control), latchAfter == 1,
                 phaseAfter)
    }
  }

  /** The shared divider advance with its five-bit quotient. */
  predicate DividerIdentity(r: LongRow)
    requires r.Shape()
  {
    Zero(Packed(r.divAfter) - Packed(r.div) - 4 * r.cycles + 65536 * Packed(r.quotient))
  }

  function Choose(zero: int, one: int, slow: int, fastest: int, medium: int, fast: int): int {
    slow * ((1 - zero) * (1 - one)) + fastest * (zero * (1 - one)) + medium * ((1 - zero) * one) + fast * (zero * one)
  }

  function PeriodColumn(c: Setup): int
    requires c.Shape()
  {
    Choose(c.control[0], c.control[1], 1024, 16, 64, 256)
  }

  function RemainderColumn(c: Setup, div: seq<int>): int
    requires c.Shape() && |div| == 16
  {
    Choose(c.control[0], c.control[1], Packed(div[..10]), Packed(div[..4]), Packed(div[..6]), Packed(div[..8]))
  }

  /** Identities of a row that skips to a timer interrupt. */
  predicate UntilTimerIdentities(r: LongRow)
    requires r.Shape()
  {
    var period, remainder := PeriodColumn(r.setup), RemainderColumn(r.setup, r.div);
    && Zero(r.setup.control[2] - 1)
    && Zero(r.phase)
    && Zero(r.latch - Detector(r.setup, r.div))
    && Zero(4 * r.cycles - (period - remainder + (255 - Packed(r.counter)) * period + 5) - Packed(r.gap))
    && Zero(Packed(r.counterAfter) - Packed(r.setup.modulo))
    && Zero(r.phaseAfter)
    && Zero(r.latchAfter - r.setup.control[0] * (1 - r.setup.control[1]) * (r.gap[0] * r.gap[1]))
    && Zero(r.requestAfter - 1)
  }

  /** Identities of a row that skips to VBlank or serial completion: the timer is stopped. */
  predicate StoppedIdentities(r: LongRow)
    requires r.Shape()
  {
    && Zero(r.setup.control[2]) && Zero(r.phase) && Zero(r.latch) && Zero(r.phaseAfter) && Zero(r.latchAfter)
    && Zero(Packed(r.counterAfter) - Packed(r.counter))
    && Zero(r.requestAfter - r.requestBefore)
  }

  /** The boolean identities of the row say exactly that its columns are bits. */
  lemma LongBits(r: LongRow)
    ensures r.BooleanIdentitiesHold() <==> r.Boolean()
    ensures r.Boolean() ==> Bit(r.requestBefore) && Bit(r.requestAfter)
  {
    hide BooleanIdentities;
    BooleanColumns(r.div);
    BooleanColumns(r.divAfter);
    BooleanColumns(r.quotient);
    BooleanColumns(r.counter);
    BooleanColumns(r.counterAfter);
    BooleanColumns(r.gap);
    var flags := [r.requestBefore, r.requestAfter];
    BooleanColumns(flags);
    assert flags[0] == r.requestBefore && flags[1] == r.requestAfter;
  }

  // ----- the selected columns -----

  lemma ChooseCases(zero: int, one: int, slow: int, fastest: int, medium: int, fast: int)
    requires Bit(zero) && Bit(one)
    ensures Choose(zero, one, slow, fastest, medium, fast) ==
            if one == 0 then (if zero == 0 then slow else fastest) else if zero == 0 then medium else fast
  {
  }

  lemma LowBits(div: seq<int>, k: nat, w: int)
    requires |div| == 16 && Bits(div) && k <= 16 && w == Pow2(k)
    ensures w > 0 && Packed(div[..k]) == Packed(div) % w
  {
    PackedSplit(div, k);
    PackedRange(div[..k]);
    DivisionUnique(Packed(div), w, Packed(div[k..]), Packed(div[..k]));
  }

  /** The period and remainder columns are the timer's own. */
  lemma PeriodMeans(c: Setup, div: seq<int>, t: TimerState)
    requires c.Shape() && |div| == 16 && Bits(div) && t.control == Packed(c.control) && t.rawDiv == Packed(div)
    ensures PeriodColumn(c) == t.Period() && RemainderColumn(c, div) == t.rawDiv % t.Period()
    ensures t.Enabled() <==> c.control[2] == 1
    ensures t.Period() == 16 <==> c.control[0] == 1 && c.control[1] == 0
  {
    hide Packed, Pow2, Choose;
    PowerValues();
    LowBits(div, 10, 1024);
    LowBits(div, 4, 16);
    LowBits(div, 6, 64);
    LowBits(div, 8, 256);
    Packed3(c.control);
    ChooseCases(c.control[0], c.control[1], 1024, 16, 64, 256);
    ChooseCases(c.control[0], c.control[1], Packed(div[..10]), Packed(div[..4]), Packed(div[..6]), Packed(div[..8]));
    DivisionUnique(t.control, 4, c.control[2], c.control[0] + 2 * c.control[1]);
  }

  lemma Ranges(r: LongRow)
    requires r.Shape() && r.Boolean()
    ensures 0 <= Packed(r.div) < 65536 && 0 <= Packed(r.divAfter) < 65536 && 0 <= Packed(r.quotient) < 32
    ensures 0 <= Packed(r.counter) < 256 && 0 <= Packed(r.counterAfter) < 256 && 0 <= Packed(r.gap) < 4
    ensures 0 <= Packed(r.setup.modulo) < 256 && 0 <= Packed(r.setup.control) < 8
    ensures Packed(r.gap) == r.gap[0] + 2 * r.gap[1]
  {
    PackedRange(r.div);
    PackedRange(r.divAfter);
    PackedRange(r.quotient);
    PackedRange(r.counter);
    PackedRange(r.counterAfter);
    PackedRange(r.gap);
    PackedRange(r.setup.modulo);
    Packed3(r.setup.control);
    assert r.gap[1..][1..] == [];
    hide Packed, Pow2;
    PowerValues();
  }

  /** Any length below 2^64: the divider after the row. */
  lemma DividerForced(r: LongRow)
    requires r.Shape() && r.BooleanIdentitiesHold() && DividerIdentity(r) && r.cycles < 0x1_0000_0000_0000_0000
    ensures Packed(r.divAfter) == (Packed(r.div) + 4 * r.cycles) % 0x1_0000
  {
    hide Packed;
    LongBits(r);
    Ranges(r);
    ZeroIsZero(Packed(r.divAfter) - Packed(r.div) - 4 * r.cycles + 65536 * Packed(r.quotient));
    DivisionUnique(Packed(r.div) + 4 * r.cycles, 65536, Packed(r.quotient), Packed(r.divAfter));
  }

  lemma EqDistance(cycles: int, ticks: int, gap: int)
    requires 0 <= cycles < 0x1_0000_0000_0000_0000 && 0 <= ticks <= 262149 && 0 <= gap < 4
    requires Zero(4 * cycles - ticks - gap)
    ensures 4 * cycles == ticks + gap && cycles == (ticks + 3) / 4
  {
    ZeroIsZero(4 * cycles - ticks - gap);
  }

  lemma EqLatchAfter(latch: int, zero: int, one: int, low: int, high: int)
    requires Felt(latch) && Bit(zero) && Bit(one) && Bit(low) && Bit(high)
    requires Zero(latch - zero * (1 - one) * (low * high))
    ensures latch == AsBit(zero == 1 && one == 0 && low == 1 && high == 1)
  {
    assert low * high == AsBit(low == 1 && high == 1);
    assert zero * (1 - one) == AsBit(zero == 1 && one == 0);
    SameColumn(latch, zero * (1 - one) * (low * high));
  }

  /** The starting state has a known distance, and the row length is that distance rounded up to M-cycles. */
  lemma LengthForced(r: LongRow)
    requires r.Shape() && r.Boolean() && UntilTimerIdentities(r) && r.cycles < 0x1_0000_0000_0000_0000
    ensures r.Before().Valid() && r.Before().TCyclesUntilInterrupt().Some?
    ensures var t := r.Before().TCyclesUntilInterrupt().value;
            t >= 6 && 4 * r.cycles == t + Packed(r.gap) && 0 <= Packed(r.gap) < 4 && r.cycles == (t + 3) / 4
  {
    hide Packed, Choose, Select, Bits, TimerState.DetectorInput, TimerState.Period, PeriodColumn, RemainderColumn,
         Detector;
    Ranges(r);
    var t := r.Before();
    EnabledForced(r);
    SameColumn(r.phase, 0);
    PeriodMeans(r.setup, r.div, t);
    LatchForced(r);
    TicksBound(t);
    EqDistance(r.cycles, t.Period() - t.rawDiv % t.Period() + (255 - t.counter) * t.Period() + 5, Packed(r.gap));
  }

  lemma EnabledForced(r: LongRow)
    requires r.Shape() && Zero(r.setup.control[2] - 1)
    ensures r.setup.control[2] == 1
  {
    ZeroIsZero(r.setup.control[2] - 1);
  }

  lemma DetectorOf(t: TimerState, u: TimerState)
    requires u.rawDiv == t.rawDiv && u.control == t.control
    ensures t.DetectorInput() == u.DetectorInput()
  {
  }

  lemma LatchForced(r: LongRow)
    requires r.Shape() && r.Boolean() && Zero(r.latch - Detector(r.setup, r.div))
    ensures r.latch == AsBit(r.Before().DetectorInput())
  {
    hide Packed, Detector, TimerState.DetectorInput;
    var s := Columns(r.div, r.counter, [0, 0, 0], 0, 0);
    DetectorColumn(r.setup, s);
    DetectorOf(Decode(r.setup, s), r.Before());
    SameColumn(r.latch, Detector(r.setup, r.div));
  }

  lemma AfterForced(r: LongRow)
    requires r.Shape() && r.Boolean() && UntilTimerIdentities(r)
    ensures r.phaseAfter == 0 && Packed(r.counterAfter) == Packed(r.setup.modulo) && r.requestAfter == 1
    ensures r.latchAfter == AsBit(r.setup.control[0] == 1 && r.setup.control[1] == 0 && Packed(r.gap) == 3)
  {
    hide Packed, Select, Choose, PeriodColumn, RemainderColumn, Detector;
    Ranges(r);
    SameColumn(r.phaseAfter, 0);
    SameColumn(Packed(r.counterAfter), Packed(r.setup.modulo));
    LongBits(r);
    ZeroIsZero(r.requestAfter - 1);
    EqLatchAfter(r.latchAfter, r.setup.control[0], r.setup.control[1], r.gap[0], r.gap[1]);
  }

  /**
    * A row that skips to a timer interrupt has exactly the M-cycles after which the request is first visible,
    * and its timer columns are those of that many single T-cycles.
    */
  lemma UntilTimerForced(r: LongRow)
    requires r.Shape() && r.BooleanIdentitiesHold() && UntilTimerIdentities(r) && DividerIdentity(r)
    requires r.cycles < 0x1_0000_0000_0000_0000
    ensures r.cycles > 0 && r.Before().Valid() && r.After() == Ticks(r.Before(), 4 * r.cycles)
    ensures r.requestAfter == 1 && Requested(r.Before(), 4 * r.cycles) && !Requested(r.Before(), 4 * r.cycles - 4)
    ensures r.Before().TCyclesUntilInterrupt().Some? && r.cycles == (r.Before().TCyclesUntilInterrupt().value + 3) / 4
  {
    hide Packed, UntilTimerIdentities, DividerIdentity, Ticks, Requested, TimerState.TCyclesUntilInterrupt,
         TimerState.DetectorInput, Bits, TimerState.Period;
    LongBits(r);
    Ranges(r);
    LengthForced(r);
    DividerForced(r);
    AfterForced(r);
    var t := r.Before();
    InterruptDistanceExact(t, 4 * r.cycles);
    InterruptDistanceExact(t, 4 * r.cycles - 4);
    StateAfterRequest(t, Packed(r.gap));
    DividerCounts(t, 4 * r.cycles);
    PeriodMeans(r.setup, r.div, Ticks(t, 4 * r.cycles).(rawDiv := t.rawDiv));
    PeriodMeans(r.setup, r.div, t);
  }

  /** A row that skips to another interrupt leaves a stopped timer alone, divider aside. */
  lemma StoppedForced(r: LongRow)
    requires r.Shape() && r.BooleanIdentitiesHold() && StoppedIdentities(r) && DividerIdentity(r)
    requires r.cycles < 0x1_0000_0000_0000_0000
    ensures r.Before().Valid() && r.After() == Ticks(r.Before(), 4 * r.cycles)
    ensures !Requested(r.Before(), 4 * r.cycles) && r.requestAfter == r.requestBefore
  {
    hide Packed, DividerIdentity, Ticks, Requested, TimerState.DetectorInput;
    LongBits(r);
    Ranges(r);
    DividerForced(r);
    Packed3(r.setup.control);
    ZeroIsZero(r.setup.control[2]);
    SameColumn(r.phase, 0);
    SameColumn(r.latch, 0);
    SameColumn(r.phaseAfter, 0);
    SameColumn(r.latchAfter, 0);
    SameColumn(Packed(r.counterAfter), Packed(r.counter));
    ZeroIsZero(r.requestAfter - r.requestBefore);
    StoppedTimer(r.Before(), 4 * r.cycles);
  }
}
