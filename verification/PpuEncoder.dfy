/** The encoder of the STAT columns, and which states its rows are accepted for. */
module PpuEncoder {

  import opened Field
  import opened Gadgets
  import opened Devices
  import opened PpuRow
  import opened Encoding

  function EqualFlags(line: seq<int>, compare: seq<int>): (r: seq<bool>)
    requires |line| == |compare|
    ensures |r| == |line|
  {
    seq(|line|, i requires 0 <= i < |line| => line[i] == compare[i])
  }

  function IdleFlags(s: Side): (r: seq<bool>)
    requires s.Shape()
    ensures |r| == 4
  {
    [!(s.low[43] == 1 && s.vblank == 0 && s.below252 == 0), !(s.low[44] == 1 && s.vblank == 1),
     !(s.low[45] == 1 && s.vblank == 0 && s.below80 == 1), !(s.low[46] == 1 && s.coincidence == 1)]
  }

  function SetFlags(b: seq<int>): (r: seq<bool>)
    ensures |r| == |b|
  {
    seq(|b|, i requires 0 <= i < |b| => b[i] == 1)
  }

  /** The columns an encoder writes whose coincidence prefix starts from `start`. */
  predicate EncodedFrom(s: Side, start: bool) {
    && s.Shape()
    && var p := s.Decode();
    && s.vblank == AsBit(p.Enabled() && p.line >= 144)
    && s.below80 == AsBit(p.Enabled() && p.dot < 80)
    && s.below252 == AsBit(p.Enabled() && p.dot < 252)
    && s.coincidence == AsBit(p.line == p.lineCompare)
    && s.signal == AsBit(p.Signal())
    && RunningBits(true, SetFlags(s.dotBits[2..8]), s.dotPrefix)
    && RunningBits(start, EqualFlags(s.lineBits, s.high[40..48]), s.coincidencePrefix)
    && RunningBits(p.Enabled(), IdleFlags(s), s.inactivePrefix)
  }

  /** A boundary starts it from the LCD enable bit; the state between a register write and the clock starts it from
      one. */
  predicate Encoded(s: Side) { s.Shape() && EncodedFrom(s, s.Decode().Enabled()) }

  lemma ProductBits(x: int, y: int, z: int)
    requires Bit(x) && Bit(y) && Bit(z)
    ensures x * y * z == AsBit(x == 1 && y == 1 && z == 1)
  {
  }

  lemma FourBits(w: int, x: int, y: int, z: int)
    requires Bit(w) && Bit(x) && Bit(y) && Bit(z)
    ensures w * x * y * z == AsBit(w == 1 && x == 1 && y == 1 && z == 1)
  {
    ProductBits(w, x, y);
    if w * x * y == 1 {} else {}
  }

  /** The mode columns are always accepted. */
  lemma ModesAccepted(s: Side, start: bool)
    requires EncodedFrom(s, start) && s.Boolean() && PositionKnown(s)
    ensures ModeIdentities(s)
  {
    hide Packed, Or, Ppu.Signal, RunningBits, ChainIdentities, Bits;
    RegisterBits(s);
    LineThreshold(s.line, s.lineBits);
    DotThresholds(s.dot, s.dotBits);
    PositionBits(s);
    Above79(s.dotBits[6], s.dotBits[5], s.dotBits[4]);
    ProductBits(s.low[39], s.lineBits[7], s.lineBits[4]);
    FourBits(s.low[39], 1 - s.dotBits[8], 1 - s.dotBits[7], 1 - s.dotBits[6] * Or(s.dotBits[5], s.dotBits[4]));
    DotPrefix(s, start);
    RunningChain(true, SetFlags(s.dotBits[2..8]), s.dotPrefix,
                 s.dotBits[2..8]) by { assert Bits(s.dotBits); SetFactors(s.dotBits[2..8]); }
    ProductBits(s.low[39], 1 - s.dotBits[8], 1 - s.dotPrefix[5]);
    assert Zero(0);
  }

  lemma SetFactors(b: seq<int>)
    requires Bits(b)
    ensures forall i :: 0 <= i < |b| ==> b[i] == AsBit(SetFlags(b)[i])
  {
  }

  lemma PositionBits(s: Side)
    requires s.Shape() && s.Boolean()
    ensures Bit(s.lineBits[4]) && Bit(s.lineBits[7]) && Bit(s.dotBits[4]) && Bit(s.dotBits[5]) && Bit(s.dotBits[6])
            && Bit(s.dotBits[7]) && Bit(s.dotBits[8]) && Bit(s.dotPrefix[5]) && Bit(s.low[39])
    ensures Bits(s.dotBits[2..8])
  {
  }

  lemma DotPrefix(s: Side, start: bool)
    requires EncodedFrom(s, start)
    ensures s.dotPrefix[5] == AsBit(s.dotBits[2] == 1 && s.dotBits[3] == 1 && s.dotBits[4] == 1 && s.dotBits[5] == 1
                                    && s.dotBits[6] == 1 && s.dotBits[7] == 1)
  {
    hide Packed, Ppu.Signal;
    var f := SetFlags(s.dotBits[2..8]);
    assert f[0] == (s.dotBits[2] == 1) && f[1] == (s.dotBits[3] == 1) && f[2] == (s.dotBits[4] == 1)
      && f[3] == (s.dotBits[5] == 1)
           && f[4] == (s.dotBits[6] == 1) && f[5] == (s.dotBits[7] == 1);
    assert s.dotPrefix[5] == AsBit(Upto(true, f, 5));
  }

  /** So is the composite line. */
  lemma SignalAccepted(s: Side, start: bool)
    requires EncodedFrom(s, start) && s.Boolean() && PositionKnown(s)
    ensures SignalIdentities(s)
  {
    hide Packed, Bits, ChainIdentities, PositionKnown;
    RegisterBits(s);
    IdleSourceBits(s);
    var flags, idle := IdleFlags(s), IdleSources(s);
    assert Bit(idle[0]) && Bit(idle[1]) && Bit(idle[2]) && Bit(idle[3]) by { FourOf(idle); }
    RunningChain(s.Decode().Enabled(), flags, s.inactivePrefix, idle);
    assert s.inactivePrefix[3] == AsBit(Upto(s.Decode().Enabled(), flags, 3));
    assert Zero(0);
  }

  lemma FourOf(b: seq<int>)
    requires |b| == 4 && Bits(b)
    ensures Bit(b[0]) && Bit(b[1]) && Bit(b[2]) && Bit(b[3])
  {
  }

  lemma EqualFactors(line: seq<int>, compare: seq<int>)
    requires |line| == |compare| && Bits(line) && Bits(compare)
    ensures forall i :: 0 <= i < |line| ==> EqualBits(line, compare)[i] == AsBit(EqualFlags(line, compare)[i])
  {
  }

  /** Started from one, the coincidence chain is accepted. */
  lemma CoincidenceAcceptedOn(s: Side)
    requires EncodedFrom(s, true) && s.Boolean() && PositionKnown(s)
    ensures CoincidenceIdentities(1, s)
  {
    hide Packed, Ppu.Signal, ChainIdentities, EqualBits, EqualFlags;
    var compare := s.high[40..48];
    var flags := EqualFlags(s.lineBits, compare);
    EqualFactors(s.lineBits, compare);
    RunningChain(true, flags, s.coincidencePrefix, EqualBits(s.lineBits, compare));
    PackedInjective(s.lineBits, compare);
    AllEqual(s.lineBits, compare);
    assert s.coincidencePrefix[7] == AsBit(Upto(true, flags, 7));
    assert Zero(0);
  }

  lemma AllEqual(line: seq<int>, compare: seq<int>)
    requires |line| == |compare| == 8
    ensures Upto(true, EqualFlags(line, compare), 7) <==> line == compare
  {
    var flags := EqualFlags(line, compare);
    assert forall i :: 0 <= i < 8 ==> flags[i] == (line[i] == compare[i]);
  }

  /** Started from zero it is all zero, which the relation admits exactly when the lowest bits differ. */
  lemma CoincidenceAcceptedOff(s: Side)
    requires EncodedFrom(s, false) && s.Boolean() && PositionKnown(s)
    ensures CoincidenceIdentities(1, s) <==> s.lineBits[0] != s.high[40]
  {
    hide Packed, Ppu.Signal, EqualBits, EqualFlags;
    var compare := s.high[40..48];
    var equal := EqualBits(s.lineBits, compare);
    EqualFactors(s.lineBits, compare);
    EqualBitsMean(s.lineBits, compare);
    PackedInjective(s.lineBits, compare);
    assert forall i :: 0 <= i < 8 ==> s.coincidencePrefix[i] == 0;
    assert equal[0]
      == AsBit(s.lineBits[0] == s.high[40]) by { assert compare[0] == s.high[40]; EqualFlagAt(s.lineBits, compare, 0); }
    if s.lineBits[0] == s.high[40] {
      assert !ChainLink(1, s.coincidencePrefix, equal, 0);
    } else {
      forall i: nat | i < 8 ensures ChainLink(1, s.coincidencePrefix, equal, i) {
        LinkHolds(1, s.coincidencePrefix, equal, i);
      }
      assert s.lineBits != compare;
    }
  }

  lemma EqualFlagAt(line: seq<int>, compare: seq<int>, i: nat)
    requires |line| == |compare| && i < |line|
    ensures EqualFlags(line, compare)[i] == (line[i] == compare[i])
  {
  }

  /**
    * The encoder's rows satisfy the STAT relation for a valid PPU exactly when the LCD is on or LYC is odd:
    * with the LCD off the encoder starts the coincidence prefix from zero and the relation from one.
    */
  lemma EncoderAcceptedExactly(s: Side)
    requires Encoded(s) && s.Boolean() && PositionKnown(s) && s.Decode().Valid()
    ensures StateIdentities(1, s) <==> s.Decode().Enabled() || s.Decode().lineCompare % 2 == 1
  {
    hide Packed, ModeIdentities, SignalIdentities, CoincidenceIdentities, RunningBits, Ppu.Signal;
    ModesAccepted(s, s.Decode().Enabled());
    SignalAccepted(s, s.Decode().Enabled());
    if s.Decode().Enabled() {
      CoincidenceAcceptedOn(s);
    } else {
      CoincidenceAcceptedOff(s);
      LowestBit(s.lineBits);
      LowestBit(s.high[40..48]);
    }
  }

  /** Started from one, the relation accepts every state. */
  lemma StartedAccepted(s: Side)
    requires EncodedFrom(s, true) && s.Boolean() && PositionKnown(s)
    ensures StateIdentities(1, s)
  {
    hide Packed, ModeIdentities, SignalIdentities, CoincidenceIdentities, RunningBits, Ppu.Signal;
    ModesAccepted(s, true);
    SignalAccepted(s, true);
    CoincidenceAcceptedOn(s);
  }

  lemma LowestBit(b: seq<int>)
    requires |b| == 8 && Bits(b)
    ensures Packed(b) % 2 == b[0]
  {
    PackedBit(b, 0);
    PowerValues();
  }
}
