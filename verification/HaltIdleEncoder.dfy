/** Honest HALT-idle rows: exactly when the relation accepts the idle batch of a device. */
module HaltIdleEncoder {

  import opened Field
  import opened Gadgets
  import opened Timer
  import opened Devices
  import opened HaltSkips
  import opened Encoding
  import opened PpuRow
  import opened QuietRow
  import opened SerialRow
  import opened RowEncoder
  import opened TimerRow
  import opened TimerEncoder
  import opened HaltIdleRow

  function ActiveColumns(c: nat): (s: seq<int>)
    ensures |s| == 6
  {
    seq(6, i requires 0 <= i < 6 => AsBit(i < c))
  }

  lemma ActiveAre(c: nat)
    requires c <= 6
    ensures Bits(ActiveColumns(c)) && ActivePrefix(ActiveColumns(c), c)
  {
    var s := ActiveColumns(c);
    assert forall i :: 0 <= i < 6 ==> s[i] == AsBit(i < c);
  }

  function ClearFlagsOf(after: seq<int>, enable: seq<int>): (s: seq<bool>)
    requires |after| == 5 && |enable| == 5
    ensures |s| == 5
  {
    seq(5, i requires 0 <= i < 5 => !(after[i] == 1 && enable[i] == 1))
  }

  /** The encoder's row for the native idle batch of `d`. */
  function IdleRowOf(d: Device): Idle
    requires d.Valid() && d.AdvanceT(4 * HaltIdle(d)).Valid()
  {
    var c := HaltIdle(d);
    Idle(QuietRowOf(d, c), TimerRowOf(d.timer, d.request.timer, c), RequestBits(d.enable), ActiveColumns(c),
         Prefix(true, ClearFlagsOf(RequestBits(d.AdvanceT(4 * c).request), RequestBits(d.enable))))
  }

  lemma CyclesAccepted(c: nat)
    requires 1 <= c <= 6
    ensures CycleIdentities(ActiveColumns(c), c)
  {
    var active := ActiveColumns(c);
    ActiveAre(c);
    forall i | 0 <= i < 5 ensures Zero((1 - active[i]) * active[i + 1]) { ZeroHolds((1 - active[i]) * active[i + 1]); }
    ZeroHolds(Sum(active) - c);
    ZeroHolds((c - 1) * (c - 2) * (c - 3) * (c - 4) * (c - 5) * (c - 6)) by { SixRoots(c); }
  }

  lemma FactorsAre(h: Idle)
    requires h.Shape() && Bits(h.quiet.afterIf) && Bits(h.enable)
    ensures forall i :: 0 <= i < 5 ==>
            HaltIdleRow.ClearFactors(h)[i] == AsBit(ClearFlagsOf(h.quiet.afterIf, h.enable)[i])
  {
    forall i | 0 <= i < 5 ensures HaltIdleRow.ClearFactors(h)[i] == AsBit(ClearFlagsOf(h.quiet.afterIf, h.enable)[i]) {
      ClearFactor(h.quiet.afterIf[i], h.enable[i]);
    }
  }

  lemma ClearFactor(a: int, e: int)
    requires Bit(a) && Bit(e)
    ensures 1 - a * e == AsBit(!(a == 1 && e == 1))
  {
  }

  /** The clear prefix of the row, and what a short batch means for it. */
  lemma ClearAccepted(h: Idle, after: Lines, enable: Lines)
    requires h.Shape() && h.quiet.afterIf == RequestBits(after) && h.enable == RequestBits(enable)
    requires h.clear == Prefix(true, ClearFlagsOf(h.quiet.afterIf, h.enable))
    requires h.active[5] == 1 || (h.active[5] == 0 && after.Meets(enable))
    ensures FinalPendingIdentities(h)
  {
    hide ChainIdentities, ClearFlagsOf, RequestBits, Lines.Meets, HaltIdleRow.ClearFactors, Prefix, Upto;
    var flags := ClearFlagsOf(h.quiet.afterIf, h.enable);
    FactorsAre(h);
    RunningChain(true, flags, h.clear, HaltIdleRow.ClearFactors(h));
    assert h.clear[4] == AsBit(Upto(true, flags, 4));
    if after.Meets(enable) { SomeFlagClear(after, enable); }
    ZeroHolds((1 - h.active[5]) * h.clear[4]);
  }

  lemma SomeFlagClear(after: Lines, enable: Lines)
    requires after.Meets(enable)
    ensures !Upto(true, ClearFlagsOf(RequestBits(after), RequestBits(enable)), 4)
  {
    var f := ClearFlagsOf(RequestBits(after), RequestBits(enable));
    assert f[0] == !(after.vblank && enable.vblank);
    assert f[1] == !(after.stat && enable.stat);
    assert f[2] == !(after.timer && enable.timer);
    assert f[3] == !(after.serial && enable.serial);
    assert f[4] == !(after.joypad && enable.joypad);
  }

  // ----- every enabled event happens in the last M-cycle -----

  lemma NothingBefore(d: Device)
    requires !d.Pending()
    ensures
      var k := HaltIdle(d) - 1;
      k >= 0 && (k > 0 ==> !d.Raised(4 * k).Meets(d.enable))
  {
    hide Device.Raised;
    HaltIdleExact(d);
    var k := HaltIdle(d) - 1;
    PendingAfterRaised(d, k);
  }

  lemma GapProduct(enable: int, event: int, bit: int)
    requires enable == 0 || event == 0 || bit == 0
    ensures Zero(enable * event * bit)
  {
    ZeroHolds(enable * event * bit);
  }

  lemma VBlankGapSmall(d: Device)
    requires d.Valid() && d.AdvanceT(4 * HaltIdle(d)).Valid() && !d.Pending() && d.enable.vblank
    requires QuietRowOf(d, HaltIdle(d)).vblankEvent == 1
    ensures d.ppu.Enabled() && 0 <= Gap(d.ppu.Position() + 4 * HaltIdle(d), NextVBlank(d.ppu)) < 4
  {
    hide EncodeSide, BitsOf, PpuTicks, VBlankRaised, StatRaised, Ppu.Signal, ZeroChain, Ticks, Requested, HaltIdle,
         RequestBits;
    var p, c := d.ppu, HaltIdle(d);
    NothingBefore(d);
    EntersAtPosition(p);
    LineOfPosition(p);
    VBlankExact(p, 4 * (c - 1));
  }

  lemma StatGapSmall(d: Device)
    requires d.Valid() && d.AdvanceT(4 * HaltIdle(d)).Valid() && !d.Pending() && d.enable.stat
    requires QuietRowOf(d, HaltIdle(d)).statEvent == 1
    ensures d.ppu.Enabled() && 0 <= Gap(4 * HaltIdle(d), StatDistanceOf(d.ppu)) < 4
  {
    hide EncodeSide, BitsOf, PpuTicks, VBlankRaised, StatRaised, Ppu.Signal, ZeroChain, Ticks, Requested, HaltIdle,
         RequestBits;
    var p, c := d.ppu, HaltIdle(d);
    NothingBefore(d);
    if p.Enabled() {
      StatExact(p, 4 * c);
      StatWithin(p, c);
    } else {
      DisabledPpu(p, 4 * c);
    }
  }

  /** If the boundary lay before the last M-cycle the line would have risen by then. */
  lemma StatWithin(p: Ppu, c: nat)
    requires p.Valid() && p.Enabled() && 1 <= c <= 6 && StatRaised(p, 4 * c) && (c > 1 ==> !StatRaised(p, 4 * (c - 1)))
    ensures 4 * c - StatDistanceOf(p) < 4
  {
    hide Ppu.Signal, StatRaised, PpuTicks;
    var k := StatDistanceOf(p);
    StatExact(p, 4 * c);
    if 4 * c - k >= 4 {
      CrossBoundary(p, k);
      WithinSegment(PpuTicks(p, k), 4 * (c - 1) - k);
      WithinSegment(PpuTicks(p, k), 4 * c - k);
      PpuCompose(p, k, 4 * (c - 1) - k);
      PpuCompose(p, k, 4 * c - k);
    }
  }

  lemma SerialGapSmall(d: Device)
    requires d.Valid() && !d.Pending() && d.enable.serial && d.serial.Completes(4 * HaltIdle(d))
    ensures 0 <= 4 * HaltIdle(d) - d.serial.remaining < 4
  {
    hide HaltIdle, PpuTicks, VBlankRaised, StatRaised, Ticks, Requested;
    NothingBefore(d);
  }

  lemma TimerQuietBefore(d: Device, k: nat)
    requires d.Valid() && !d.Pending() && d.enable.timer && 1 <= k < HaltIdle(d)
    ensures !d.request.timer && !Requested(d.timer, 4 * k)
  {
    hide HaltIdle, PpuTicks, VBlankRaised, StatRaised, Ticks, Requested;
    HaltIdleExact(d);
    PendingAfterRaised(d, k);
  }

  lemma GapBitsSmall(bits: seq<int>, gap: int, n: nat, enable: int, event: int)
    requires bits == BitsOf(gap, n) && n >= 2 && Bit(enable) && Bit(event)
    requires enable == 1 && event == 1 ==> 0 <= gap < 4
    ensures forall b :: 2 <= b < n ==> Zero(enable * event * bits[b])
  {
    hide BitsOf;
    if enable == 1 && event == 1 { SmallBits(gap, n); }
    forall b | 2 <= b < n ensures Zero(enable * event * bits[b]) { GapProduct(enable, event, bits[b]); }
  }

  lemma PpuGapsAccepted(d: Device)
    requires d.Valid() && d.AdvanceT(4 * HaltIdle(d)).Valid() && !d.Pending()
    ensures
      var q, enable := QuietRowOf(d, HaltIdle(d)), RequestBits(d.enable);
      && |q.vblankGap| == 17 && |q.statGap| == 9
      && (forall b :: 2 <= b < 17 ==> Zero(enable[0] * q.vblankEvent * q.vblankGap[b]))
      && (forall b :: 2 <= b < 9 ==> Zero(enable[1] * q.statEvent * q.statGap[b]))
  {
    hide EncodeSide, BitsOf, PpuTicks, VBlankRaised, StatRaised, Ppu.Signal, ZeroChain, Ticks, Requested, HaltIdle,
         Zero, Device.AdvanceT;
    var q, c, p, enable := QuietRowOf(d, HaltIdle(d)), HaltIdle(d), d.ppu, RequestBits(d.enable);
    if d.enable.vblank && q.vblankEvent == 1 { VBlankGapSmall(d); }
    if d.enable.stat && q.statEvent == 1 { StatGapSmall(d); }
    GapBitsSmall(q.vblankGap, if p.Enabled() then Gap(p.Position() + 4 * c, NextVBlank(p)) else 0, 17, enable[0],
                 q.vblankEvent);
    GapBitsSmall(q.statGap, if p.Enabled() then Gap(4 * c, StatDistanceOf(p)) else 0, 9, enable[1], q.statEvent);
  }

  lemma SerialGapsAccepted(d: Device)
    requires d.Valid() && d.AdvanceT(4 * HaltIdle(d)).Valid() && !d.Pending()
    ensures
      var q, enable := QuietRowOf(d, HaltIdle(d)), RequestBits(d.enable);
      |q.completionGap| == 5 && forall b :: 2 <= b < 5 ==> Zero(enable[3] * q.completed * q.completionGap[b])
  {
    hide EncodeSide, BitsOf, PpuTicks, VBlankRaised, StatRaised, Ppu.Signal, ZeroChain, Ticks, Requested, HaltIdle,
         Zero, Device.AdvanceT;
    var q, n, enable := QuietRowOf(d, HaltIdle(d)), 4 * HaltIdle(d), RequestBits(d.enable);
    if d.enable.serial && d.serial.Completes(n) { SerialGapSmall(d); }
    GapBitsSmall(q.completionGap, if d.serial.Completes(n) then n - d.serial.remaining else 0, 5, enable[3],
                 q.completed);
  }

  lemma TimerGapsAccepted(d: Device, k: nat)
    requires d.Valid() && !d.Pending() && 1 <= k < 6
    ensures
      var stages := StagesOf(d.timer, d.request.timer, HaltIdle(d));
      Zero(AsBit(d.enable.timer) * ActiveColumns(HaltIdle(d))[k] * stages[4 * k - 1].next.interrupt)
  {
    hide BitsOf, Ticks, Requested, HaltIdle, Zero, EncodeStage, StagesOf;
    var c := HaltIdle(d);
    ActiveAre(c);
    StageLeaves(d.timer, d.request.timer, c, 4 * k - 1);
    var line := StagesOf(d.timer, d.request.timer, c)[4 * k - 1].next.interrupt;
    if d.enable.timer && k < c { TimerQuietBefore(d, k); }
    GapProduct(AsBit(d.enable.timer), ActiveColumns(c)[k], line);
  }

  lemma GapsAccepted(h: Idle, d: Device)
    requires d.Valid() && d.AdvanceT(4 * HaltIdle(d)).Valid() && !d.Pending() && h.Shape()
    requires h.quiet == QuietRowOf(d, HaltIdle(d))
    requires h.enable == RequestBits(d.enable) && h.active == ActiveColumns(HaltIdle(d))
    requires h.timer.stages == StagesOf(d.timer, d.request.timer, HaltIdle(d))
    ensures GapIdentities(h)
  {
    hide QuietRowOf, StagesOf, HaltIdle, Zero, Device.AdvanceT, ActiveColumns, Device.Valid, Device.Pending,
         RequestBits;
    PpuGapsAccepted(d);
    SerialGapsAccepted(d);
    EnableTimer(d.enable);
    forall k | 1 <= k < 6 ensures Zero(h.enable[2] * h.active[k] * h.timer.stages[4 * k - 1].next.interrupt) {
      TimerGapsAccepted(d, k);
    }
  }

  lemma EnableTimer(l: Lines)
    ensures RequestBits(l)[2] == AsBit(l.timer)
  {
  }

  // ----- the whole row -----

  lemma IdleShape(d: Device)
    requires d.Valid() && d.AdvanceT(4 * HaltIdle(d)).Valid()
    ensures IdleRowOf(d).Shape() && IdleRowOf(d).BooleanIdentitiesHold()
    ensures QuietIdentities(IdleRowOf(d).quiet) <==> Encodable(d.ppu)
    ensures IdleRowOf(d).timer.Identities()
  {
    hide QuietRowOf, TimerRowOf, HaltIdle, Device.AdvanceT, QuietIdentities, Row.Identities, Row.Shape, Quiet.Shape,
         Quiet.Boolean, Quiet.BooleanIdentitiesHold, Bits, BooleanIdentities;
    var h := IdleRowOf(d);
    ClockAcceptedExactly(d, HaltIdle(d));
    TimerRowComplete(d.timer, d.request.timer, HaltIdle(d));
    ActiveAre(HaltIdle(d));
    BooleanColumns(h.enable);
    BooleanColumns(h.active);
    BooleanColumns(h.clear);
  }

  lemma FinalAccepted(d: Device)
    requires d.Valid() && d.AdvanceT(4 * HaltIdle(d)).Valid() && !d.Pending() && IdleRowOf(d).Shape()
    ensures FinalPendingIdentities(IdleRowOf(d))
  {
    hide HaltIdle, EncodeSide, BitsOf, TimerRowOf, FinalPendingIdentities, Device.Raised, ZeroChain, VBlankRaised,
         StatRaised, PpuTicks, Ticks;
    HaltIdleExact(d);
    ActiveAre(HaltIdle(d));
    ClearAccepted(IdleRowOf(d), d.AdvanceT(4 * HaltIdle(d)).request, d.enable);
  }

  lemma QuietFields(d: Device, c: nat)
    requires d.Valid() && d.AdvanceT(4 * c).Valid()
    ensures
      var q := QuietRowOf(d, c);
      && q.before == EncodeSide(d) && q.beforeIf == RequestBits(d.request)
      && q.afterIf == RequestBits(d.AdvanceT(4 * c).request)
      && q.sources == [0, 0, 0, 0, 0] && q.longVBlank == 0 && q.cycles == c
  {
    hide EncodeSide, BitsOf, VBlankRaised, StatRaised, PpuTicks, ZeroChain, Device.AdvanceT, RequestBits,
         Serial.Completes, Ppu.Signal;
    assert Zeros(5) == [0, 0, 0, 0, 0];
  }

  lemma TimerFields(t: TimerState, line: bool, c: nat)
    ensures
      var r := TimerRowOf(t, line, c);
      && r.before.interrupt == AsBit(line) && r.afterInterrupt == AsBit(line || Requested(t, 4 * c)) && r.quiet == 1
      && r.cycleActive == ActiveColumns(c)
  {
    hide BitsOf, StagesOf, Ticks, Requested;
  }

  lemma LinesRound(l: Lines)
    ensures LinesOf(RequestBits(l)) == l && RequestBits(l)[2] == AsBit(l.timer)
  {
  }

  lemma ClockedTimer(d: Device, n: nat)
    ensures d.AdvanceT(n).request.timer == (d.request.timer || Requested(d.timer, n))
  {
    hide Ticks, Requested, PpuTicks, VBlankRaised, StatRaised;
  }

  lemma StartsHere(d: Device)
    requires d.Valid() && d.AdvanceT(4 * HaltIdle(d)).Valid()
    ensures IdleRowOf(d).StartsFrom(d)
  {
    hide HaltIdle, EncodeSide, QuietRowOf, TimerRowOf, Requested, Side.Decode, SerialOf, Idle.Shape, Row.TimerBefore,
         Device.AdvanceT, RequestBits, LinesOf, Device.Valid, ActiveColumns, Prefix;
    var c := HaltIdle(d);
    IdleShape(d);
    SideRoundTrip(d);
    QuietFields(d, c);
    TimerFields(d.timer, d.request.timer, c);
    TimerBeforeIs(d, c);
    LinesRound(d.request);
    LinesRound(d.enable);
    LinesRound(d.AdvanceT(4 * c).request);
    ClockedTimer(d, 4 * c);
  }

  lemma TimerBeforeIs(d: Device, c: nat)
    requires d.Valid() && c <= 6
    ensures TimerRowOf(d.timer, d.request.timer, c).TimerBefore() == d.timer
  {
    hide TimerRowOf, Row.Identities, Row.Shape, Row.TimerBefore, Row.TimerAfter;
    TimerRowComplete(d.timer, d.request.timer, c);
  }

  /**
    * Completeness of HALT-idle rows: for every valid device with nothing pending, the encoder's row for the native idle
    * batch starts from that device and meets every identity exactly when the LCD is on or LYC is odd.
    */
  lemma IdleRowAcceptedExactly(d: Device)
    requires d.Valid() && !d.Pending()
    ensures d.AdvanceT(4 * HaltIdle(d)).Valid()
    ensures
      var h := IdleRowOf(d);
      && h.Shape() && h.BooleanIdentitiesHold() && h.StartsFrom(d) && h.quiet.cycles == HaltIdle(d)
      && (HaltIdleRow.Identities(h) <==> Encodable(d.ppu))
  {
    AdvanceValid(d, 4 * HaltIdle(d));
    IdleParts(d);
  }

  lemma StagesAre(d: Device)
    ensures TimerRowOf(d.timer, d.request.timer, HaltIdle(d)).stages == StagesOf(d.timer, d.request.timer, HaltIdle(d))
  {
    hide StagesOf, HaltIdle, Ticks, Requested, BitsOf;
  }

  lemma IdleParts(d: Device)
    requires d.Valid() && !d.Pending() && d.AdvanceT(4 * HaltIdle(d)).Valid()
    ensures
      var h := IdleRowOf(d);
      && h.Shape() && h.BooleanIdentitiesHold() && h.StartsFrom(d) && h.quiet.cycles == HaltIdle(d)
      && (HaltIdleRow.Identities(h) <==> Encodable(d.ppu))
  {
    hide HaltIdle, EncodeSide, TimerRowOf, Device.AdvanceT, QuietIdentities, Row.Identities, Idle.StartsFrom,
         FinalPendingIdentities, GapIdentities, CycleIdentities, Idle.Shape, Idle.BooleanIdentitiesHold, Device.Valid,
         Device.Pending;
    IdleShape(d);
    StartsHere(d);
    FinalAccepted(d);
    StagesAre(d);
    GapsAccepted(IdleRowOf(d), d);
    CyclesAccepted(HaltIdle(d));
  }
}
