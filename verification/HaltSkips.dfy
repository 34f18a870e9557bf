/** HALT fast-forward: the idle batch and the long skips to VBlank, serial completion and timer overflow. */
module HaltSkips {

  import opened Wrappers
  import opened Timer
  import opened Devices

  ghost predicate PendingAfter(d: Device, m: nat) {
    d.AdvanceT(4 * m).Pending()
  }

  /** Some enabled interrupt is pending after `m` M-cycles and after no fewer. */
  ghost predicate FirstPending(d: Device, m: nat) {
    PendingAfter(d, m) && forall k: nat :: k < m ==> !PendingAfter(d, k)
  }

  // ----- the functions of the device -----

  /** `halt_idle_m_cycles`: at most six M-cycles, ending at the first enabled interrupt. */
  function HaltIdle(d: Device): (m: nat)
    ensures 1 <= m <= 6
  {
    if d.AdvanceT(4).Pending() then 1
    else if d.AdvanceT(8).Pending() then 2
    else if d.AdvanceT(12).Pending() then 3
    else if d.AdvanceT(16).Pending() then 4
    else if d.AdvanceT(20).Pending() then 5
    else 6
  }

  predicate TimerQuiet(t: TimerState) {
    !t.Enabled() && t.reloadPhase == 0 && !t.edgeLatch
  }

  predicate DmaQuiet(d: Dma) {
    !d.active && d.owed == 0
  }

  function UntilVBlank(d: Device): Option<nat> {
    if d.Pending() || !d.ppu.Enabled() || !d.enable.vblank || d.enable.joypad || d.ppu.statControl != 0
       || !TimerQuiet(d.timer) || d.serial.remaining != 0 || d.serial.control >= 128 || !DmaQuiet(d.dma)
    then None
    else
      var remaining := ToVBlank(d.ppu);
      if remaining <= 0 || remaining % 4 != 0 || remaining / 4 > 0xffff then None else Some(remaining / 4)
  }

  function UntilSerial(d: Device): Option<nat> {
    if d.Pending() || !d.enable.serial || d.ppu.Enabled() || !TimerQuiet(d.timer)
       || !(d.serial.control >= 128 && d.serial.control % 2 == 1)
       || d.serial.remaining <= 0 || d.serial.remaining > 4096 || d.serial.remaining % 4 != 0 || !DmaQuiet(d.dma)
    then None
    else Some(d.serial.remaining / 4)
  }

  function UntilTimer(d: Device): Option<nat> {
    if d.Pending() || !d.enable.timer || d.ppu.Enabled() || d.serial.remaining != 0 || d.serial.control >= 128
       || !DmaQuiet(d.dma)
    then None
    else
      match d.timer.TCyclesUntilInterrupt()
      case None => None
      case Some(t) => if t < 0 then None else Some((t + 3) / 4)
  }

  /** The long skip a halted machine takes, in the order the transition tries them. */
  function LongSkip(d: Device): Option<nat> {
    if UntilVBlank(d).Some? then UntilVBlank(d)
    else if UntilSerial(d).Some? then UntilSerial(d)
    else UntilTimer(d)
  }

  // ----- exactness -----

  lemma PendingAfterRaised(d: Device, m: nat)
    ensures PendingAfter(d, m) <==> d.Pending() || d.Raised(4 * m).Meets(d.enable)
  {
    hide Device.Raised;
  }

  /** VBlank skip: the first enabled interrupt is VBlank, it comes after exactly `m` M-cycles, at line 144 dot 0. */
  lemma VBlankSkipExact(d: Device, m: nat)
    requires d.Valid() && UntilVBlank(d) == Some(m)
    ensures m > 0 && FirstPending(d, m)
    ensures PendingInterrupt(d.AdvanceT(4 * m)) == Some(VBlank)
    ensures d.AdvanceT(4 * m).ppu.line == 144 && d.AdvanceT(4 * m).ppu.dot == 0
  {
    hide Ticks, Requested, PpuTicks, VBlankRaised, StatRaised;
    forall k: nat ensures PendingAfter(d, k) <==> k >= m {
      PendingAfterRaised(d, k);
      VBlankExact(d.ppu, 4 * k);
      NoStat(d.ppu, 4 * k);
      StoppedTimer(d.timer, 4 * k);
    }
    VBlankExact(d.ppu, 4 * m);
    PositionAdvances(d.ppu, 4 * m);
    EntersAtPosition(d.ppu);
    FrameRemainder(d.ppu.Position() + 4 * m - (if d.ppu.Position() < VBlankTCycle then 0 else FrameTCycles));
    ModShift(d.ppu.Position() + 4 * m);
  }

  lemma ModShift(s: int)
    ensures (s - FrameTCycles) % FrameTCycles == s % FrameTCycles
  {
  }

  lemma {:induction false} NoStat(p: Ppu, n: nat)
    requires p.statControl == 0
    ensures !StatRaised(p, n)
  {
    if n > 0 { NoStat(p, n - 1); }
  }

  /** Serial skip: the first enabled interrupt is serial completion, after exactly `m` M-cycles. */
  lemma SerialSkipExact(d: Device, m: nat)
    requires d.Valid() && UntilSerial(d) == Some(m)
    ensures m > 0 && FirstPending(d, m)
    ensures PendingInterrupt(d.AdvanceT(4 * m)) == Some(SerialDone)
    ensures d.AdvanceT(4 * m).serial == Serial(0xff, d.serial.control - 128, 0)
  {
    hide Ticks, Requested, PpuTicks, VBlankRaised, StatRaised;
    forall k: nat ensures PendingAfter(d, k) <==> k >= m {
      PendingAfterRaised(d, k);
      DisabledPpu(d.ppu, 4 * k);
      StoppedTimer(d.timer, 4 * k);
    }
    DisabledPpu(d.ppu, 4 * m);
    StoppedTimer(d.timer, 4 * m);
  }

  /** Timer skip: the M-cycle containing the next overflow interrupt, and no earlier one. */
  lemma TimerSkipExact(d: Device, m: nat)
    requires d.Valid() && UntilTimer(d) == Some(m)
    ensures m > 0 && FirstPending(d, m)
    ensures PendingInterrupt(d.AdvanceT(4 * m)) == Some(TimerOverflow)
  {
    hide Ticks, Requested, PpuTicks, VBlankRaised, StatRaised;
    var t := d.timer.TCyclesUntilInterrupt().value;
    InterruptDistanceExact(d.timer, 4 * m);
    forall k: nat ensures PendingAfter(d, k) <==> k >= m {
      PendingAfterRaised(d, k);
      DisabledPpu(d.ppu, 4 * k);
      InterruptDistanceExact(d.timer, 4 * k);
      assert 4 * k >= t <==> k >= (t + 3) / 4;
    }
    DisabledPpu(d.ppu, 4 * m);
  }

  lemma LongSkipExact(d: Device, m: nat)
    requires d.Valid() && LongSkip(d) == Some(m)
    ensures m > 0 && FirstPending(d, m) && DmaQuiet(d.dma)
  {
    hide FirstPending;
    if UntilVBlank(d).Some? { VBlankSkipExact(d, m); }
    else if UntilSerial(d).Some? { SerialSkipExact(d, m); }
    else { TimerSkipExact(d, m); }
  }

  // ----- idle batches -----

  /** The idle batch is the first pending M-cycle when it comes within six, and six otherwise. */
  lemma HaltIdleExact(d: Device)
    ensures forall k: nat :: 1 <= k < HaltIdle(d) ==> !PendingAfter(d, k)
    ensures PendingAfter(d, HaltIdle(d)) || HaltIdle(d) == 6
  {
    hide Device.AdvanceT, Device.Pending;
    forall k: nat | 1 <= k < HaltIdle(d) ensures !PendingAfter(d, k) {
      assert k == 1 || k == 2 || k == 3 || k == 4 || k == 5;
    }
  }

  /** One HALT-idle machine step: advance the devices, then schedule DMA bytes. */
  function IdleStep(d: Device): Device {
    d.AdvanceM(HaltIdle(d)).(dma := d.dma.Schedule(HaltIdle(d), d.dma.active))
  }

  lemma IdleStepAdvances(d: Device)
    requires d.Valid() && DmaQuiet(d.dma)
    ensures IdleStep(d) == d.AdvanceT(4 * HaltIdle(d))
    ensures IdleStep(d).Valid() && DmaQuiet(IdleStep(d).dma)
  {
    hide HaltIdle, Ticks, Requested, PpuTicks, VBlankRaised, StatRaised, Serial.Advance, Serial.Completes;
    AdvanceValid(d, 4 * HaltIdle(d));
  }

  lemma FirstPendingShift(d: Device, c: nat, m: nat)
    requires d.Valid() && FirstPending(d, m) && c <= m
    ensures FirstPending(d.AdvanceT(4 * c), m - c)
  {
    hide Device.AdvanceT, Device.Pending;
    forall k: nat ensures PendingAfter(d.AdvanceT(4 * c), k) <==> PendingAfter(d, c + k) {
      AdvanceCompose(d, 4 * c, 4 * k);
      assert 4 * c + 4 * k == 4 * (c + k);
    }
  }
}
