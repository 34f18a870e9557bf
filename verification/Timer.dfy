/** The DMG divider and TIMA pipeline, one T-cycle at a time. */
module Timer {

  import opened Wrappers
  import opened Modulus

  datatype TimerState = TimerState(
    rawDiv: int, counter: int, modulo: int, control: int, edgeLatch: bool, reloadPhase: int)
  {
    /** The machine widths of the fields; phase 0 is idle and 1..5 encode the overflow ticks. */
    predicate Valid() {
      && 0 <= rawDiv < 0x1_0000 && 0 <= counter < 256 && 0 <= modulo < 256
      && 0 <= control < 8 && 0 <= reloadPhase <= 5
    }

    predicate Enabled() { control >= 4 }

    /** Divider ticks between two falling edges of the selected bit. */
    function Period(): (p: int)
      ensures p in {16, 64, 256, 1024}
    {
      match control % 4 case 0 => 1024 case 1 => 16 case 2 => 64 case _ => 256
    }

    predicate DetectorInput() {
      && Enabled()
      && match control % 4
         case 0 => rawDiv / 512 % 2 == 1
         case 1 => rawDiv / 8 % 2 == 1
         case 2 => rawDiv / 32 % 2 == 1
         case _ => rawDiv / 128 % 2 == 1
    }

    /** Moves the reload pipeline; at phase five TIMA takes TMA. */
    function AdvanceReload(): TimerState {
      if reloadPhase == 5 then this.(counter := modulo, reloadPhase := 0)
      else if reloadPhase != 0 then this.(reloadPhase := reloadPhase + 1)
      else this
    }

    function Increment(): TimerState {
      if counter == 255 then this.(counter := 0, reloadPhase := 1)
      else this.(counter := counter + 1)
    }

    /** One T-cycle, without the interrupt it may request. */
    function Tick(): (t: TimerState)
      ensures Valid() ==> t.Valid()
      ensures t.control == control && t.modulo == modulo
      ensures t.edgeLatch == t.DetectorInput()
      ensures t.rawDiv == if rawDiv == 0xffff then 0 else rawDiv + 1
    {
      var reloaded := AdvanceReload();
      var stepped := reloaded.(rawDiv := if rawDiv == 0xffff then 0 else rawDiv + 1);
      var falling := edgeLatch && !stepped.DetectorInput();
      var latched := stepped.(edgeLatch := stepped.DetectorInput());
      if falling then latched.Increment() else latched
    }

    /** The T-cycle that starts in phase five requests the timer interrupt. */
    predicate Requests() { reloadPhase == 5 }

    /** A visible write to FF04 through FF07. */
    function Write(address: int, value: int): (t: TimerState)
      ensures address < 0xff04 || address > 0xff07 ==> t == this
    {
      if address == 0xff04 then this.(rawDiv := 0)
      else if address == 0xff05 then
        if reloadPhase == 5 then this.(counter := modulo) else this.(counter := value, reloadPhase := 0)
      else if address == 0xff06 then
        if reloadPhase == 5 then this.(modulo := value, counter := value) else this.(modulo := value)
      else if address == 0xff07 then this.(control := value % 8)
      else this
    }

    function Read(address: int): int {
      if address == 0xff04 then rawDiv / 256
      else if address == 0xff05 then if reloadPhase == 5 then modulo else counter
      else if address == 0xff06 then modulo
      else 0xf8 + control
    }

    /** The shortcut distance to the next timer interrupt, when the detector is settled. */
    function TCyclesUntilInterrupt(): Option<int> {
      if !Enabled() || reloadPhase != 0 || edgeLatch != DetectorInput() then None
      else Some(Period() - rawDiv % Period() + (255 - counter) * Period() + 5)
    }
  }

  const PostBootTimer := TimerState(0xabcc, 0, 0, 0, false, 0)

  /** `n` T-cycles. */
  function Ticks(t: TimerState, n: nat): (u: TimerState)
    ensures t.Valid() ==> u.Valid()
    ensures u.control == t.control && u.modulo == t.modulo
    ensures u.Period() == t.Period()
  {
    if n == 0 then t else Ticks(t, n - 1).Tick()
  }

  /** Some one of the next `n` T-cycles requests the interrupt. */
  predicate Requested(t: TimerState, n: nat) {
    n > 0 && (Requested(t, n - 1) || Ticks(t, n - 1).Requests())
  }

  lemma {:induction false} TicksCompose(t: TimerState, a: nat, b: nat)
    ensures Ticks(t, a + b) == Ticks(Ticks(t, a), b)
    ensures Requested(t, a + b) <==> Requested(t, a) || Requested(Ticks(t, a), b)
  {
    hide TimerState.Tick;
    if b > 0 {
      TicksCompose(t, a, b - 1);
    }
  }

  // ----- the closed-form distance is exact -----

  /** The detector latch agrees with its input and no reload is in flight. */
  ghost predicate Settled(t: TimerState) {
    t.Valid() && t.Enabled() && t.reloadPhase == 0 && t.edgeLatch == t.DetectorInput()
  }

  ghost function Remainder(t: TimerState): int { t.rawDiv % t.Period() }

  /** T-cycles until the tick in which the counter overflows. */
  ghost function ToOverflow(t: TimerState): int {
    t.Period() - Remainder(t) + (255 - t.counter) * t.Period()
  }

  lemma DetectorIsUpperHalf(t: TimerState)
    requires t.Valid() && t.Enabled()
    ensures t.DetectorInput() <==> 2 * Remainder(t) >= t.Period()
    ensures 0 <= Remainder(t) < t.Period()
  {
    match t.control % 4
    case 0 => HalfPeriod(t.rawDiv, 512);
    case 1 => HalfPeriod(t.rawDiv, 8);
    case 2 => HalfPeriod(t.rawDiv, 32);
    case _ => HalfPeriod(t.rawDiv, 128);
  }

  lemma HalfPeriod(x: int, h: int)
    requires 0 <= x && h > 0
    ensures x / h % 2 == 1 <==> x % (2 * h) >= h
  {
    var q, r := x / (2 * h), x % (2 * h);
    var s := if r >= h then 1 else 0;
    assert x == (2 * h) * q + r;
    assert (2 * h) * q == h * (2 * q);
    assert h * (2 * q + s) == h * (2 * q) + h * s;
    DivisionUnique(x, h, 2 * q + s, r - h * s);
  }

  /** The divider wraps at a multiple of every period. */
  lemma NextRemainder(t: TimerState)
    requires t.Valid()
    ensures Remainder(t.Tick()) == if Remainder(t) + 1 == t.Period() then 0 else Remainder(t) + 1
  {
    var p := t.Period();
    ModStep(t.rawDiv, p);
    assert 0xffff % p == p - 1 && 0 % p == 0;
    assert t.Tick().Period() == p;
  }

  lemma ModStep(x: int, p: int)
    requires p > 1
    ensures (x + 1) % p == if x % p + 1 == p then 0 else x % p + 1
  {
    var q, r := x / p, x % p;
    assert x == p * q + r;
    if r + 1 == p {
      assert p * (q + 1) == p * q + p;
      DivisionUnique(x + 1, p, q + 1, 0);
    } else {
      DivisionUnique(x + 1, p, q, r + 1);
    }
  }

  /** A settled tick either moves one step closer to the overflow or is the overflow. */
  lemma SettledTick(t: TimerState)
    requires Settled(t)
    ensures !t.Requests()
    ensures ToOverflow(t) >= 1
    ensures ToOverflow(t) > 1 ==> Settled(t.Tick()) && ToOverflow(t.Tick()) == ToOverflow(t) - 1
    ensures ToOverflow(t) == 1 ==> Overflowed(t.Tick(), 1)
  {
    var u := t.Tick();
    DetectorIsUpperHalf(t);
    DetectorIsUpperHalf(u);
    NextRemainder(t);
    var p := t.Period();
    var left := 255 - t.counter;
    assert left * p >= 0;
    assert left >= 1 ==> left * p >= p;
    assert (left - 1) * p == left * p - p;
  }

  /** `k` ticks into the reload pipeline after an overflow (`k` is the stored phase). */
  ghost predicate Overflowed(t: TimerState, k: int) {
    && t.Valid() && t.Enabled() && t.reloadPhase == k && t.counter == 0
    && t.edgeLatch == t.DetectorInput() && Remainder(t) == k - 1
  }

  lemma OverflowedTick(t: TimerState, k: int)
    requires Overflowed(t, k) && 1 <= k <= 5
    ensures t.Requests() <==> k == 5
    ensures k < 5 ==> Overflowed(t.Tick(), k + 1)
    ensures k == 5 ==> Reloaded(t.Tick(), 0)
  {
    DetectorIsUpperHalf(t);
    DetectorIsUpperHalf(t.Tick());
    NextRemainder(t);
  }

  /** `g` ticks after the interrupt request: TIMA holds TMA and nothing else has moved. */
  ghost predicate Reloaded(t: TimerState, g: int) {
    && t.Valid() && t.Enabled() && t.reloadPhase == 0 && t.counter == t.modulo
    && Remainder(t) == 5 + g && (t.edgeLatch <==> t.Period() == 16 && g >= 3)
  }

  lemma ReloadedTick(t: TimerState, g: int)
    requires Reloaded(t, g) && 0 <= g < 3
    ensures !t.Requests() && Reloaded(t.Tick(), g + 1)
  {
    DetectorIsUpperHalf(t.Tick());
    NextRemainder(t);
  }

  lemma {:induction false} SettledRun(t: TimerState, k: nat)
    requires Settled(t) && k < ToOverflow(t)
    ensures !Requested(t, k)
    ensures Settled(Ticks(t, k)) && ToOverflow(Ticks(t, k)) == ToOverflow(t) - k
  {
    hide TimerState.Tick, TimerState.DetectorInput;
    if k > 0 {
      SettledRun(t, k - 1);
      SettledTick(Ticks(t, k - 1));
    }
  }

  lemma {:induction false} OverflowRun(t: TimerState, k: nat)
    requires Settled(t) && 1 <= k <= 5
    ensures ToOverflow(t) >= 1
    ensures
      var n := ToOverflow(t) + k - 1;
      !Requested(t, n) && Overflowed(Ticks(t, n), k)
  {
    hide TimerState.Tick, TimerState.DetectorInput;
    SettledTick(t);
    var n := ToOverflow(t);
    if k == 1 {
      SettledRun(t, n - 1);
      SettledTick(Ticks(t, n - 1));
    } else {
      OverflowRun(t, k - 1);
      OverflowedTick(Ticks(t, n + k - 2), k - 1);
    }
  }

  lemma {:induction false} RequestedMonotone(t: TimerState, k: nat, n: nat)
    requires k <= n && Requested(t, k)
    ensures Requested(t, n)
    decreases n
  {
    if k < n { RequestedMonotone(t, k, n - 1); }
  }

  /** `t_cycles_until_interrupt` is the exact distance: the request comes in that tick and in no earlier one. */
  lemma InterruptDistanceExact(t: TimerState, k: nat)
    requires t.Valid() && t.TCyclesUntilInterrupt().Some?
    ensures t.TCyclesUntilInterrupt().value >= 6
    ensures Requested(t, k) <==> k >= t.TCyclesUntilInterrupt().value
  {
    var n: nat := t.TCyclesUntilInterrupt().value;
    OverflowRun(t, 5);
    assert n == ToOverflow(t) + 5;
    assert Ticks(t, n - 1).Requests();
    assert Requested(t, n);
    if k >= n {
      RequestedMonotone(t, n, k);
    } else if Requested(t, k) {
      RequestedMonotone(t, k, n - 1);
    }
  }

  /** The whole timer state reached up to three ticks after the request. */
  lemma {:induction false} StateAfterRequest(t: TimerState, g: nat)
    requires t.Valid() && t.TCyclesUntilInterrupt().Some? && g <= 3
    ensures t.TCyclesUntilInterrupt().value >= 6
    ensures Reloaded(Ticks(t, t.TCyclesUntilInterrupt().value + g), g)
  {
    hide TimerState.Tick, TimerState.DetectorInput;
    var n: nat := t.TCyclesUntilInterrupt().value;
    OverflowRun(t, 5);
    if g == 0 {
      OverflowedTick(Ticks(t, n - 1), 5);
    } else {
      StateAfterRequest(t, g - 1);
      ReloadedTick(Ticks(t, n + g - 1), g - 1);
    }
  }

  /** The divider counts T-cycles modulo 2^16. */
  lemma {:induction false} DividerCounts(t: TimerState, n: nat)
    requires t.Valid()
    ensures Ticks(t, n).rawDiv == (t.rawDiv + n) % 0x1_0000
  {
    hide TimerState.Tick, TimerState.DetectorInput;
    if n > 0 { DividerCounts(t, n - 1); }
  }

  /** A stopped timer with an empty pipeline and a clear latch never moves and never requests. */
  lemma {:induction false} StoppedTimer(t: TimerState, n: nat)
    requires t.Valid() && !t.Enabled() && t.reloadPhase == 0 && !t.edgeLatch
    ensures !Requested(t, n)
    ensures Ticks(t, n) == t.(rawDiv := (t.rawDiv + n) % 0x1_0000)
  {
    if n > 0 {
      StoppedTimer(t, n - 1);
    }
  }

  /** No timer is further than this from its interrupt. */
  lemma TicksBound(t: TimerState)
    requires t.Valid()
    ensures 6 <= t.Period() - t.rawDiv % t.Period() + (255 - t.counter) * t.Period() + 5 <= 262149
  {
    var p := t.Period();
    assert 0 <= (255 - t.counter) * p <= 255 * 1024 by {
      if p == 16 {} else if p == 64 {} else if p == 256 {} else {}
    }
  }
}
