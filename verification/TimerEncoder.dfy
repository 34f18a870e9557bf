/** Honest timer rows: the encoder's stages and whole rows satisfy the relation for every timer. */
module TimerEncoder {

  import opened Field
  import opened Gadgets
  import opened Timer
  import opened TimerRow
  import opened Encoding

  // ----- one stage -----

  function Encode(t: TimerState, interrupt: bool): Columns {
    Columns(BitsOf(t.rawDiv, 16), BitsOf(t.counter, 8), BitsOf(t.reloadPhase, 3), AsBit(t.edgeLatch), AsBit(interrupt))
  }

  function EncodeSetup(t: TimerState): Setup { Setup(BitsOf(t.control, 3), BitsOf(t.modulo, 8)) }

  /** `append_timer_tick`: advance when active, record the reload intermediate and the two carry bits. */
  function EncodeStage(t: TimerState, interrupt: bool, active: bool): Stage {
    var reload := t.AdvanceReload();
    var falling := t.edgeLatch && !t.Tick().DetectorInput();
    Stage(
      if active then Encode(t.Tick(), interrupt || t.Requests()) else Encode(t, interrupt),
      BitsOf(reload.counter, 8), BitsOf(reload.reloadPhase, 3),
      AsBit(active && t.rawDiv == 0xffff), AsBit(active && falling && reload.counter == 255))
  }

  lemma DecodeEncode(t: TimerState, interrupt: bool)
    requires t.Valid()
    ensures EncodeSetup(t).Shape() && Encode(t, interrupt).Shape() && Encode(t, interrupt).Boolean()
    ensures Decode(EncodeSetup(t), Encode(t, interrupt)) == t
  {
    PowerValues();
    PackedBitsOf(t.rawDiv, 16);
    PackedBitsOf(t.counter, 8);
    PackedBitsOf(t.reloadPhase, 3);
    PackedBitsOf(t.control, 3);
    PackedBitsOf(t.modulo, 8);
  }

  lemma ScalarsComplete(active: bool, v: Scalars, t: TimerState, u: TimerState)
    requires t.Valid()
    requires u == (if active then t.Tick() else t)
    requires v.div == t.rawDiv && v.counter == t.counter && v.phase == t.reloadPhase && v.latch == AsBit(t.edgeLatch)
    requires Bit(v.interrupt) && v.five == AsBit(t.reloadPhase == 5) && v.zero == AsBit(t.reloadPhase == 0)
    requires v.modulo == t.modulo && v.detector == AsBit(u.DetectorInput())
    requires v.reloadCounter == t.AdvanceReload().counter && v.reloadPhase == t.AdvanceReload().reloadPhase
    requires v.wrap == AsBit(active && t.rawDiv == 0xffff)
    requires v.overflow == AsBit(active && t.edgeLatch && !u.DetectorInput() && v.reloadCounter == 255)
    requires v.div' == u.rawDiv && v.counter' == u.counter && v.phase' == u.reloadPhase
    requires v.latch' == AsBit(u.edgeLatch)
    requires v.interrupt' == AsBit(v.interrupt == 1 || (active && t.Requests()))
    ensures TransitionIdentities(1, AsBit(active), v)
  {
    if active { SameDetector(t, u); }
    hide TimerState.DetectorInput;
    assert Zero(0);
  }

  /** The honest stage satisfies all twelve identities. */
  lemma TickComplete(t: TimerState, interrupt: bool, active: bool)
    requires t.Valid()
    ensures EncodeSetup(t).Shape() && Encode(t, interrupt).Shape() && EncodeStage(t, interrupt, active).Shape()
    ensures TickIdentities(1, EncodeSetup(t), AsBit(active), Encode(t, interrupt), EncodeStage(t, interrupt, active))
  {
    hide BitsOf, Packed, Detector, PhaseFive, PhaseZero, TimerState.DetectorInput, TransitionIdentities, Pow2,
         TimerState.Tick;
    var c, now, s := EncodeSetup(t), Encode(t, interrupt), EncodeStage(t, interrupt, active);
    var u := if active then t.Tick() else t;
    DecodeEncode(t, interrupt);
    DecodeEncode(u, interrupt || (active && t.Requests()));
    assert s.next == Encode(u, interrupt || (active && t.Requests()));
    assert EncodeSetup(u) == c;
    ReloadColumns(t);
    PhaseColumns(c, now);
    PhaseColumns(c, s.next);
    DetectorColumn(c, s.next);
    ScalarsComplete(active, TickScalars(c, now, s), t, u);
  }

  lemma PhaseBits(k: int)
    requires 0 <= k <= 5
    ensures Packed(BitsOf(k, 3)) == k && BitsOf(k, 3)[2] * BitsOf(k, 3)[1] == 0
  {
    PowerValues();
    PackedBitsOf(k, 3);
    var b := BitsOf(k, 3);
    Packed3(b);
    hide Packed, BitsOf, Pow2;
  }

  lemma ReloadColumns(t: TimerState)
    requires t.Valid()
    ensures Packed(BitsOf(t.AdvanceReload().counter, 8)) == t.AdvanceReload().counter
    ensures Packed(BitsOf(t.AdvanceReload().reloadPhase, 3)) == t.AdvanceReload().reloadPhase
    ensures BitsOf(t.AdvanceReload().reloadPhase, 3)[2] * BitsOf(t.AdvanceReload().reloadPhase, 3)[1] == 0
  {
    PowerValues();
    hide Packed, BitsOf, Pow2;
    PackedBitsOf(t.AdvanceReload().counter, 8);
    PhaseBits(t.AdvanceReload().reloadPhase);
  }

  // ----- the whole row -----

  lemma ColumnsAccepted(t: TimerState, interrupt: bool)
    ensures Bits(Encode(t, interrupt).All())
  {
    hide Bits, BitsOf;
    var c := Encode(t, interrupt);
    TwoBits(t.edgeLatch, interrupt);
    JoinBits(c.div, c.counter);
    JoinBits(c.div + c.counter, c.phase);
    JoinBits(c.div + c.counter + c.phase, [c.latch, c.interrupt]);
  }

  lemma TwoBits(a: bool, b: bool)
    ensures Bits([AsBit(a), AsBit(b)])
  {
  }

  lemma StageColumns(t: TimerState, interrupt: bool, active: bool)
    ensures BooleanIdentities(EncodeStage(t, interrupt, active).All())
  {
    hide Bits, BitsOf, BooleanIdentities, TimerState.Tick, TimerState.DetectorInput, TimerState.AdvanceReload;
    var s := EncodeStage(t, interrupt, active);
    if active { ColumnsAccepted(t.Tick(), interrupt || t.Requests()); } else { ColumnsAccepted(t, interrupt); }
    TwoBits(active && t.rawDiv == 0xffff,
            active && t.edgeLatch && !t.Tick().DetectorInput() && t.AdvanceReload().counter == 255);
    JoinBits(s.next.All(), s.reloadCounter);
    JoinBits(s.next.All() + s.reloadCounter, s.reloadPhase);
    JoinBits(s.next.All() + s.reloadCounter + s.reloadPhase, [s.wrap, s.overflow]);
    assert s.All() == s.next.All() + s.reloadCounter + s.reloadPhase + [s.wrap, s.overflow];
    BooleanColumns(s.All());
  }

  /** Timer and interrupt line before stage `i` of a row with `c` active M-cycles. */
  function StateAt(t: TimerState, c: nat, i: nat): TimerState { Ticks(t, ActiveTicks(c, i)) }
  predicate LineAt(t: TimerState, interrupt: bool, c: nat, i: nat) { interrupt || Requested(t, ActiveTicks(c, i)) }

  function StagesOf(t: TimerState, interrupt: bool, c: nat): (s: seq<Stage>)
    ensures |s| == 24
  {
    seq(24, i requires 0 <= i < 24 => EncodeStage(StateAt(t, c, i), LineAt(t, interrupt, c, i), i < 4 * c))
  }

  /** `append_quiet_timer_core` for `c` M-cycles. */
  function TimerRowOf(t: TimerState, interrupt: bool, c: nat): Row {
    var u := Ticks(t, 4 * c);
    Row(1, EncodeSetup(t), Encode(t, interrupt), StagesOf(t, interrupt, c),
        seq(6, i requires 0 <= i < 6 => AsBit(i < c)),
        t.counter, t.reloadPhase, AsBit(t.edgeLatch),
        u.rawDiv, u.counter, u.reloadPhase, AsBit(u.edgeLatch), AsBit(interrupt || Requested(t, 4 * c)))
  }

  lemma StageShape(t: TimerState, interrupt: bool, active: bool)
    ensures EncodeStage(t, interrupt, active).Shape()
  {
    hide BitsOf, TimerState.Tick, TimerState.DetectorInput, TimerState.AdvanceReload;
  }

  lemma RowShape(t: TimerState, interrupt: bool, c: nat)
    requires t.Valid()
    ensures TimerRowOf(t, interrupt, c).Shape()
  {
    hide BitsOf, EncodeStage, Ticks, Requested, ActiveTicks, Encode, StateAt, LineAt;
    DecodeEncode(t, interrupt);
    forall i | 0 <= i < 24 ensures StagesOf(t, interrupt, c)[i].Shape() {
      StageShape(StateAt(t, c, i), LineAt(t, interrupt, c, i), i < 4 * c);
    }
  }

  /** Each stage leaves the columns the next one starts from. */
  lemma StageLeaves(t: TimerState, interrupt: bool, c: nat, i: nat)
    requires i < 24
    ensures StagesOf(t, interrupt, c)[i].next == Encode(StateAt(t, c, i + 1), LineAt(t, interrupt, c, i + 1))
  {
    hide BitsOf, Encode, Ticks, Requested, ActiveTicks, TimerState.Tick, TimerState.DetectorInput,
         TimerState.AdvanceReload;
    NextTicks(t, c, i + 1);
  }

  lemma CurrentIs(t: TimerState, interrupt: bool, c: nat, i: nat)
    requires t.Valid() && i <= 24 && TimerRowOf(t, interrupt, c).Shape()
    ensures TimerRowOf(t, interrupt, c).Current(i) == Encode(StateAt(t, c, i), LineAt(t, interrupt, c, i))
  {
    hide BitsOf, Encode, EncodeStage, StagesOf;
    if i > 0 {
      hide Ticks, Requested, ActiveTicks;
      StageLeaves(t, interrupt, c, i - 1);
    }
  }

  lemma SameSetup(t: TimerState, n: nat)
    ensures EncodeSetup(Ticks(t, n)) == EncodeSetup(t)
  {
    hide BitsOf;
  }

  lemma StageAccepted(t: TimerState, interrupt: bool, c: nat, i: nat)
    requires t.Valid() && c <= 6 && i < 24 && TimerRowOf(t, interrupt, c).Shape()
    ensures
      var r := TimerRowOf(t, interrupt, c);
      TickIdentities(1, r.setup, r.cycleActive[i / 4], r.Current(i), r.stages[i])
        && BooleanIdentities(r.stages[i].All())
  {
    hide BitsOf, Encode, EncodeStage, Ticks, Requested, ActiveTicks, TickIdentities, BooleanIdentities, EncodeSetup,
         Stage.All;
    CurrentIs(t, interrupt, c, i);
    SameSetup(t, ActiveTicks(c, i));
    TickComplete(StateAt(t, c, i), LineAt(t, interrupt, c, i), i < 4 * c);
    StageColumns(StateAt(t, c, i), LineAt(t, interrupt, c, i), i < 4 * c);
    assert i / 4 < c <==> i < 4 * c;
  }

  lemma EdgesAccepted(t: TimerState, interrupt: bool, c: nat)
    requires t.Valid() && c <= 6 && TimerRowOf(t, interrupt, c).Shape()
    ensures TimerRowOf(t, interrupt, c).InitialIdentities() && TimerRowOf(t, interrupt, c).FinalIdentities()
  {
    hide Packed, BitsOf, EncodeStage, Ticks, Requested, StagesOf, Pow2;
    var r, u, line := TimerRowOf(t, interrupt, c), Ticks(t, 4 * c), interrupt || Requested(t, 4 * c);
    DecodeEncode(t, interrupt);
    DecodeEncode(u, line);
    CurrentIs(t, interrupt, c, 24);
    assert r.stages[23].next == r.Current(24) == Encode(u, line);
    PhaseBits(t.reloadPhase);
    ZeroHolds(0);
  }

  /** Completeness: for every timer and every length of at most six M-cycles the encoder's row meets all identities. */
  lemma TimerRowComplete(t: TimerState, interrupt: bool, c: nat)
    requires t.Valid() && c <= 6
    ensures
      var r := TimerRowOf(t, interrupt, c);
      && r.Shape() && r.Identities() && ActivePrefix(r.cycleActive, c)
      && r.TimerBefore() == t && r.TimerAfter() == Ticks(t, 4 * c)
  {
    hide Packed, BitsOf, EncodeStage, Ticks, Requested, StagesOf, TickIdentities, BooleanIdentities,
         Row.InitialIdentities, Row.FinalIdentities, Stage.All, Columns.All;
    var r := TimerRowOf(t, interrupt, c);
    RowShape(t, interrupt, c);
    EdgesAccepted(t, interrupt, c);
    ColumnsAccepted(t, interrupt);
    BooleanColumns(r.before.All());
    DecodeEncode(t, interrupt);
    DecodeEncode(Ticks(t, 4 * c), interrupt);
    SameSetup(t, 4 * c);
    forall i: nat | i < 24
      ensures TickIdentities(1, r.setup, r.cycleActive[i / 4], r.Current(i), r.stages[i])
      ensures BooleanIdentities(r.stages[i].All())
    {
      StageAccepted(t, interrupt, c, i);
    }
  }
}
