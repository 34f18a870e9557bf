/** The HALT-idle row: its cycle count is forced to the idle batch of its starting device, no shorter and no longer. */
module HaltIdleRow {

  import opened Field
  import opened Timer
  import opened TimerRow
  import opened Gadgets
  import opened Devices
  import opened HaltSkips
  import opened PpuRow
  import opened QuietRow
  import opened SerialRow

  /** A HALT-idle block: the quiet-row and timer columns, IE bits, short-cycle activity, final-pending chain. */
  datatype Idle = Idle(quiet: Quiet, timer: TimerRow.Row, enable: seq<int>, active: seq<int>, clear: seq<int>) {
    predicate Shape() {
      quiet.Shape() && timer.Shape() && |enable| == 5 && |active| == 6 && |clear| == 5
    }

    predicate Boolean() { quiet.Boolean() && Bits(enable) && Bits(active) && Bits(clear) }

    predicate BooleanIdentitiesHold() {
      quiet.BooleanIdentitiesHold() && BooleanIdentities(enable) && BooleanIdentities(active)
        && BooleanIdentities(clear)
    }

    /** The row starts from device `d`, with no dispatched source and the timer columns of the same boundary. */
    predicate StartsFrom(d: Device) {
      && Shape()
      && d.ppu == quiet.before.Decode() && d.serial == SerialOf(quiet.before) && d.timer == timer.TimerBefore()
      && d.request == LinesOf(quiet.beforeIf) && d.enable == LinesOf(enable)
      && quiet.sources == [0, 0, 0, 0, 0] && timer.before.interrupt == quiet.beforeIf[2]
      && timer.afterInterrupt == quiet.afterIf[2] && timer.quiet == 1 && timer.cycleActive == active
      && quiet.longVBlank == 0
    }
  }

  function LinesOf(bits: seq<int>): Lines
    requires |bits| == 5
  {
    Lines(bits[0] == 1, bits[1] == 1, bits[2] == 1, bits[3] == 1, bits[4] == 1)
  }

  /** Short cycles form a prefix whose length is the M-cycle delta, and that delta is one of 1..6. */
  predicate CycleIdentities(active: seq<int>, cycles: int)
    requires |active| == 6
  {
    && (forall i :: 0 <= i < 5 ==> Zero((1 - active[i]) * active[i + 1]))
    && Zero(Sum(active) - cycles)
    && Zero((cycles - 1) * (cycles - 2) * (cycles - 3) * (cycles - 4) * (cycles - 5) * (cycles - 6))
  }

  function ClearFactors(h: Idle): (r: seq<int>)
    requires h.Shape()
    ensures |r| == 5
  {
    seq(5, i requires 0 <= i < 5 => 1 - h.quiet.afterIf[i] * h.enable[i])
  }

  /** Fewer than six cycles only with an enabled interrupt pending at the end. */
  predicate FinalPendingIdentities(h: Idle)
    requires h.Shape()
  {
    ChainIdentities(1, h.clear, ClearFactors(h)) && Zero((1 - h.active[5]) * h.clear[4])
  }

  /** Each enabled event happened in the last M-cycle: its gap has no bit of weight four or more. */
  predicate GapIdentities(h: Idle)
    requires h.Shape()
  {
    var q := h.quiet;
    && (forall b :: 2 <= b < 17 ==> Zero(h.enable[0] * q.vblankEvent * q.vblankGap[b]))
    && (forall b :: 2 <= b < 9 ==> Zero(h.enable[1] * q.statEvent * q.statGap[b]))
    && (forall b :: 2 <= b < 5 ==> Zero(h.enable[3] * q.completed * q.completionGap[b]))
    && (forall k :: 1 <= k < 6 ==> Zero(h.enable[2] * h.active[k] * h.timer.stages[4 * k - 1].next.interrupt))
  }

  predicate Identities(h: Idle)
    requires h.Shape()
  {
    && QuietIdentities(h.quiet) && h.timer.Identities()
    && CycleIdentities(h.active, h.quiet.cycles) && FinalPendingIdentities(h) && GapIdentities(h)
  }

  lemma IdleBits(h: Idle)
    ensures h.BooleanIdentitiesHold() <==> h.Boolean()
  {
    hide Quiet.Boolean, Quiet.BooleanIdentitiesHold, BooleanIdentities, Bits;
    QuietBits(h.quiet);
    BooleanColumns(h.enable);
    BooleanColumns(h.active);
    BooleanColumns(h.clear);
  }

  // ----- cycle count and activity prefix -----

  lemma NotZeroCycles(cycles: int)
    requires 0 <= cycles <= 6
    requires Zero((cycles - 1) * (cycles - 2) * (cycles - 3) * (cycles - 4) * (cycles - 5) * (cycles - 6))
    ensures cycles != 0
  {
  }

  lemma CyclesForced(active: seq<int>, cycles: int)
    requires |active| == 6 && Bits(active) && Felt(cycles) && CycleIdentities(active, cycles)
    ensures 1 <= cycles <= 6 && ActivePrefix(active, cycles)
  {
    SameColumn(Sum(active), cycles);
    NotZeroCycles(cycles);
    hide Zero;
    forall i | 0 <= i < 5 ensures active[i + 1] == 1 ==> active[i] == 1 { EqPrefix(active[i], active[i + 1]); }
    PrefixLength(active);
  }

  // ----- the row's interrupt bits are those of the clocked device -----

  lemma BaseKept(h: Idle, d: Device, k: nat)
    requires h.Shape() && h.Boolean() && h.StartsFrom(d) && k < 5
    ensures h.quiet.Base(k) == h.quiet.beforeIf[k]
  {
    hide Packed, Side.Decode;
    assert h.quiet.sources[k] == 0;
  }

  /** After the row, IF holds exactly what `4 * cycles` T-cycles raise. */
  lemma RequestForced(h: Idle, d: Device)
    requires h.Shape() && h.Boolean() && h.StartsFrom(d) && d.Valid() && Identities(h)
    ensures 1 <= h.quiet.cycles <= 6
    ensures LinesOf(h.quiet.afterIf) == d.AdvanceT(4 * h.quiet.cycles).request
  {
    hide Packed, Zero, RegisterIdentities, PositionIdentities, StatIdentities, VBlankIdentities, InterruptIdentities,
         SerialIdentities, Quiet.BoundaryIdentities, FinalPendingIdentities, GapIdentities, CycleIdentities,
         Row.Identities, Side.Decode, SerialOf, Row.TimerBefore, Row.Shape, Ticks, Requested, PpuTicks, VBlankRaised,
         StatRaised, Serial.Completes, Serial.Advance, Quiet.Base, Row.TimerAfter;
    var q, c := h.quiet, h.quiet.cycles;
    CyclesForced(h.active, c);
    QuietBits(q);
    PpuInterruptsForced(q);
    SerialForced(q);
    TimerRowSound(h.timer, c);
    BaseKept(h, d, 0);
    BaseKept(h, d, 1);
    BaseKept(h, d, 3);
    BaseKept(h, d, 4);
  }

  /** A row shorter than six M-cycles ends with an enabled interrupt pending. */
  lemma ShortRowPending(h: Idle, d: Device)
    requires h.Shape() && h.Boolean() && h.StartsFrom(d) && d.Valid() && Identities(h)
    ensures 1 <= h.quiet.cycles <= 6
    ensures h.quiet.cycles < 6 ==> PendingAfter(d, h.quiet.cycles)
  {
    hide QuietIdentities, FinalPendingIdentities, GapIdentities, CycleIdentities, Row.Identities, Idle.StartsFrom,
         Device.Raised, Ticks, PpuTicks, Serial.Advance, LinesOf;
    RequestForced(h, d);
    CyclesForced(h.active, h.quiet.cycles);
    EnableKept(h, d);
    if h.quiet.cycles < 6 { FinalPending(h); }
  }

  lemma EnableKept(h: Idle, d: Device)
    requires h.Shape() && h.StartsFrom(d)
    ensures d.enable == LinesOf(h.enable) && d.AdvanceT(4 * h.quiet.cycles).enable == d.enable
  {
    hide Packed, Side.Decode, SerialOf, Row.TimerBefore, Device.Raised, Ticks, PpuTicks, Serial.Advance, Row.Shape;
  }

  lemma FinalPending(h: Idle)
    requires h.Shape() && h.Boolean() && FinalPendingIdentities(h) && h.active[5] == 0
    ensures LinesOf(h.quiet.afterIf).Meets(LinesOf(h.enable))
  {
    hide Zero, ChainIdentities, Row.Shape, Side.Shape, Side.Boolean, Packed;
    EqPrefix(h.active[5], h.clear[4]);
    var f := ClearFactors(h);
    assert forall i :: 0 <= i < 5 ==> Bit(f[i]) && (f[i] == 0 <==> h.quiet.afterIf[i] == 1 && h.enable[i] == 1);
    Gadgets.ChainSound(1, h.clear, f, 5);
    var i :| 0 <= i < 5 && f[i] != 1;
    assert i == 0 || i == 1 || i == 2 || i == 3 || i == 4;
  }

  // ----- no enabled interrupt was pending earlier -----

  lemma EqGated(x: int, y: int, z: int)
    requires Bit(x) && Bit(y) && Bit(z) && x == 1 && y == 1 && Zero(x * y * z)
    ensures z == 0
  {
    ZeroIsZero(z);
  }

  lemma SmallGap(gap: seq<int>)
    requires |gap| >= 2 && Bits(gap) && forall b :: 2 <= b < |gap| ==> gap[b] == 0
    ensures Packed(gap) < 4
  {
    PackedSplit(gap, 2);
    PackedRange(gap[..2]);
    ZeroPacked(gap[2..]);
    PowerValues();
  }

  lemma VBlankNotEarlier(h: Idle, d: Device, k: nat)
    requires h.Shape() && h.Boolean() && h.StartsFrom(d) && d.Valid() && Identities(h) && d.enable.vblank
    requires 1 <= h.quiet.cycles <= 6 && k < h.quiet.cycles
    ensures !VBlankRaised(d.ppu, 4 * k)
  {
    hide Packed, Zero, RegisterIdentities, PositionIdentities, StatIdentities, VBlankIdentities, InterruptIdentities,
         SerialIdentities, Quiet.BoundaryIdentities, FinalPendingIdentities, CycleIdentities, Row.Identities,
         Side.Decode, SerialOf, Row.TimerBefore, Row.Shape, VBlankRaised, StateIdentities;
    var q := h.quiet;
    QuietBits(q);
    QuietRow.VBlankForced(q);
    if d.ppu.Enabled() {
      VBlankExact(d.ppu, 4 * k);
      VBlankExact(d.ppu, 4 * q.cycles);
      if q.vblankEvent == 1 {
        forall b | 2 <= b < 17 ensures q.vblankGap[b] == 0 { EqGated(h.enable[0], q.vblankEvent, q.vblankGap[b]); }
        SmallGap(q.vblankGap);
      }
    } else {
      DisabledPpu(d.ppu, 4 * k);
    }
  }

  lemma {:induction false} StatMonotone(p: Ppu, k: nat, n: nat)
    requires k <= n && StatRaised(p, k)
    ensures StatRaised(p, n)
    decreases n
  {
    hide Ppu.StatRises;
    if k < n { StatMonotone(p, k, n - 1); }
  }

  lemma StatNotEarlier(h: Idle, d: Device, k: nat)
    requires h.Shape() && h.Boolean() && h.StartsFrom(d) && d.Valid() && Identities(h) && d.enable.stat
    requires 1 <= h.quiet.cycles <= 6 && k < h.quiet.cycles
    ensures !StatRaised(d.ppu, 4 * k)
  {
    hide Packed, Zero, RegisterIdentities, PositionIdentities, StatIdentities, VBlankIdentities, InterruptIdentities,
         SerialIdentities, Quiet.BoundaryIdentities, FinalPendingIdentities, CycleIdentities, Row.Identities,
         Side.Decode, SerialOf, Row.TimerBefore, Row.Shape, StatRaised, StateIdentities, Ppu.Signal, PpuTicks;
    var q := h.quiet;
    QuietBits(q);
    StatForced(q);
    SamePosition(q.before);
    if StatRaised(d.ppu, 4 * k) {
      StatMonotone(d.ppu, 4 * k, 4 * q.cycles);
      forall b | 2 <= b < 9 ensures q.statGap[b] == 0 { EqGated(h.enable[1], q.statEvent, q.statGap[b]); }
      SmallGap(q.statGap);
      if d.ppu.Enabled() { StatExact(d.ppu, 4 * k); } else { DisabledPpu(d.ppu, 4 * k); }
    }
  }

  lemma SerialNotEarlier(h: Idle, d: Device, k: nat)
    requires h.Shape() && h.Boolean() && h.StartsFrom(d) && d.Valid() && Identities(h) && d.enable.serial
    requires 1 <= h.quiet.cycles <= 6 && k < h.quiet.cycles
    ensures !d.serial.Completes(4 * k)
  {
    hide Packed, Zero, RegisterIdentities, PositionIdentities, StatIdentities, VBlankIdentities, InterruptIdentities,
         Quiet.BoundaryIdentities, FinalPendingIdentities, CycleIdentities, Row.Identities, Side.Decode,
         Row.TimerBefore, Row.Shape, CountdownRange, ZeroProducts, CountdownIdentities, SerialRegisterIdentities;
    var q := h.quiet;
    CountdownBounded(q.before);
    CountdownForced(q);
    if q.completed == 1 {
      forall b | 2 <= b < 5 ensures q.completionGap[b] == 0 { EqGated(h.enable[3], q.completed, q.completionGap[b]); }
      SmallGap(q.completionGap);
    }
  }

  lemma TimerNotEarlier(h: Idle, d: Device, k: nat)
    requires h.Shape() && h.Boolean() && h.StartsFrom(d) && d.Valid() && Identities(h) && d.enable.timer
    requires 1 <= h.quiet.cycles <= 6 && ActivePrefix(h.active, h.quiet.cycles) && 1 <= k < h.quiet.cycles
    ensures !Requested(d.timer, 4 * k)
  {
    hide Packed, Zero, QuietIdentities, FinalPendingIdentities, CycleIdentities, Row.Identities,
         Side.Decode, SerialOf, Row.TimerBefore, Requested, Ticks, Decode;
    TimerRow.ChainSound(h.timer, h.quiet.cycles, 4 * k);
    var stage := h.timer.stages[4 * k - 1].next;
    assert h.timer.Current(4 * k) == stage;
    EqGated(h.enable[2], h.active[k], stage.interrupt);
  }

  lemma NotEarlier(h: Idle, d: Device, k: nat)
    requires h.Shape() && h.Boolean() && h.StartsFrom(d) && d.Valid() && Identities(h) && !d.Pending()
    requires 1 <= h.quiet.cycles <= 6 && ActivePrefix(h.active, h.quiet.cycles) && 1 <= k < h.quiet.cycles
    ensures !PendingAfter(d, k)
  {
    hide Identities, Idle.StartsFrom, Idle.Boolean, Idle.Shape, VBlankRaised, StatRaised, Requested, Serial.Completes,
         PendingAfter, Device.Valid;
    PendingAfterRaised(d, k);
    if d.enable.vblank { VBlankNotEarlier(h, d, k); }
    if d.enable.stat { StatNotEarlier(h, d, k); }
    if d.enable.serial { SerialNotEarlier(h, d, k); }
    if d.enable.timer { TimerNotEarlier(h, d, k); }
  }

  /** HALT-idle rows are exact: the cycle column equals the native idle batch of the starting device. */
  lemma HaltIdleRowExact(h: Idle, d: Device)
    requires h.Shape() && h.BooleanIdentitiesHold() && h.StartsFrom(d) && d.Valid() && Identities(h) && !d.Pending()
    ensures h.quiet.cycles == HaltIdle(d)
    ensures LinesOf(h.quiet.afterIf) == d.AdvanceM(HaltIdle(d)).request
  {
    hide QuietIdentities, FinalPendingIdentities, GapIdentities, CycleIdentities, Row.Identities, Idle.StartsFrom,
         PendingAfter, Device.Pending, HaltIdle, Device.AdvanceT;
    IdleBits(h);
    var c := h.quiet.cycles;
    CyclesForced(h.active, c);
    ShortRowPending(h, d);
    RequestForced(h, d);
    HaltIdleExact(d);
    forall k: nat | 1 <= k < c ensures !PendingAfter(d, k) { NotEarlier(h, d, k); }
  }
}
