/** What a timer register write does to the clock that follows it. */
module TimerWrites {

  import opened Modulus
  import opened Field
  import opened Timer

  /** A divider write restarts the divider: from then on it counts the T-cycles. */
  lemma DividerRestarts(t: TimerState, value: int, n: nat)
    requires t.Valid()
    ensures t.Write(0xff04, value).Valid()
    ensures Ticks(t.Write(0xff04, value), n).rawDiv == n % 0x1_0000
  {
    DividerCounts(t.Write(0xff04, value), n);
  }

  /** The divider bit a control byte selects. */
  function SelectedBit(control: int): nat { if control % 4 == 0 then 9 else 2 * (control % 4) + 1 }

  /** The detector sees the selected divider bit while the timer runs. */
  predicate Sees(control: int, rawDiv: int) {
    0 <= control && control / 4 % 2 == 1 && rawDiv / Pow2(SelectedBit(control)) % 2 == 1
  }

  lemma Detects(t: TimerState)
    requires t.Valid()
    ensures t.DetectorInput() <==> Sees(t.control, t.rawDiv)
    ensures t.Period() == 2 * Pow2(SelectedBit(t.control))
  {
    PowerValues();
    assert Pow2(9) == 2 * Pow2(8);
  }

  /** TIMA and its pipeline after one T-cycle, given whether the detector fell: the reload cycle first brings TMA, a
      pending reload comes nearer, and a fall increments whatever is there. */
  predicate Stepped(t: TimerState, u: TimerState, fell: bool) {
    var base := if t.reloadPhase == 5 then t.modulo else t.counter;
    && u.counter == (base + if fell then 1 else 0) % 256
    && u.reloadPhase == (if fell && base == 255 then 1 else if t.reloadPhase in {0, 5} then 0 else t.reloadPhase + 1)
  }

  /** The T-cycle after a divider write increments TIMA exactly when the latch was set: the bit it held falls. */
  lemma DividerWriteFalls(t: TimerState, value: int)
    requires t.Valid()
    ensures Stepped(t, t.Write(0xff04, value).Tick(), t.edgeLatch)
    ensures !t.Write(0xff04, value).Tick().edgeLatch
  {
  }

  /** The T-cycle after a control write increments TIMA exactly when the latch was set and the newly selected bit of the
      next divider is clear, or the timer is now off. */
  lemma ControlWriteFalls(t: TimerState, value: int)
    requires t.Valid() && 0 <= value < 256
    ensures Stepped(t, t.Write(0xff07, value).Tick(), t.edgeLatch && !Sees(value % 8, (t.rawDiv + 1) % 0x1_0000))
    ensures t.Write(0xff07, value).Tick().edgeLatch <==> Sees(value % 8, (t.rawDiv + 1) % 0x1_0000)
  {
    hide TimerState.DetectorInput, Sees;
    Detects(t.Write(0xff07, value).Tick());
    NextDivider(t.rawDiv);
  }

  lemma NextDivider(x: int)
    requires 0 <= x < 0x1_0000
    ensures (x + 1) % 0x1_0000 == if x == 0xffff then 0 else x + 1
  {
  }

  /** A settled latch is the selected bit itself, so a divider write costs one early increment exactly when that bit was
      set. */
  lemma SettledDividerWrite(t: TimerState, value: int)
    requires t.Valid() && t.edgeLatch == t.DetectorInput()
    ensures Stepped(t, t.Write(0xff04, value).Tick(), Sees(t.control, t.rawDiv))
  {
    hide TimerState.DetectorInput, Sees;
    Detects(t);
    DividerWriteFalls(t, value);
  }

  // ----- TIMA and TMA writes around a reload -----

  /** `k` T-cycles after TIMA was written, no request has been made and none is due before the sixth. */
  ghost predicate Quiet(t: TimerState, k: int) { t.Valid() && 0 <= t.reloadPhase <= k }

  lemma QuietTick(t: TimerState, k: int)
    requires Quiet(t, k) && 0 <= k < 5
    ensures !t.Requests() && Quiet(t.Tick(), k + 1)
  {
    hide TimerState.DetectorInput;
  }

  lemma {:induction false} QuietRun(t: TimerState, n: nat)
    requires Quiet(t, 0) && n <= 5
    ensures !Requested(t, n) && Quiet(Ticks(t, n), n)
  {
    hide TimerState.Tick, TimerState.DetectorInput;
    if n > 0 {
      QuietRun(t, n - 1);
      QuietTick(Ticks(t, n - 1), n - 1);
    }
  }

  /** Writing TIMA before the reload cycle takes effect and cancels the reload: no request in the next five T-cycles. */
  lemma CounterWriteCancels(t: TimerState, value: int, n: nat)
    requires t.Valid() && t.reloadPhase < 5 && 0 <= value < 256 && n <= 5
    ensures t.Write(0xff05, value).counter == value && !Requested(t.Write(0xff05, value), n)
  {
    QuietRun(t.Write(0xff05, value), n);
  }

  /** In the reload cycle the write is lost: TIMA takes TMA and the request is made in the next T-cycle, as without
      it. */
  lemma CounterWriteLost(t: TimerState, value: int, n: nat)
    requires t.Valid() && t.reloadPhase == 5 && n > 0
    ensures Ticks(t.Write(0xff05, value), n) == Ticks(t, n) && Requested(t.Write(0xff05, value), n) && Requested(t, n)
  {
    hide TimerState.DetectorInput;
    LostAtOnce(t, value);
    TicksCompose(t.Write(0xff05, value), 1, n - 1);
    TicksCompose(t, 1, n - 1);
  }

  lemma LostAtOnce(t: TimerState, value: int)
    requires t.Valid() && t.reloadPhase == 5
    ensures Ticks(t.Write(0xff05, value), 1) == Ticks(t, 1)
    ensures Requested(t.Write(0xff05, value), 1) && Requested(t, 1)
  {
    hide TimerState.DetectorInput;
    assert Ticks(t, 0) == t && Ticks(t.Write(0xff05, value), 0) == t.Write(0xff05, value);
    assert t.Write(0xff05, value).Tick() == t.Tick();
  }

  /** A TMA write in the reload cycle is the byte TIMA takes in the next T-cycle, plus one if the detector falls in
      it. */
  lemma ModuloWriteTaken(t: TimerState, value: int)
    requires t.Valid() && 0 <= value < 256 && t.reloadPhase == 5
    ensures
      var u := t.Write(0xff06, value).Tick();
      var fell := t.edgeLatch && !Sees(t.control, (t.rawDiv + 1) % 0x1_0000);
      && u.counter == (value + if fell then 1 else 0) % 256 && u.reloadPhase == (if fell && value == 255 then 1 else 0)
      && u.modulo == value
  {
    hide TimerState.DetectorInput, Sees;
    Detects(t.Write(0xff06, value).Tick());
    NextDivider(t.rawDiv);
  }

  /** At any other time TIMA runs on and the new TMA waits for the next reload. */
  lemma ModuloWriteWaits(t: TimerState, value: int)
    requires t.Valid() && t.reloadPhase != 5
    ensures t.Write(0xff06, value).Tick() == t.Tick().(modulo := value)
  {
    var w, u := t.Write(0xff06, value), t.Tick();
    assert w.Tick().rawDiv == u.rawDiv && w.Tick().edgeLatch == w.Tick().DetectorInput();
    assert w.Tick().DetectorInput() == u.DetectorInput();
  }
}
