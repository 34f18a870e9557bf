/** What the interrupt, joypad and sound registers mean to a program. */
module RegisterLaws {

  import opened Wrappers
  import opened Modulus
  import opened Devices
  import opened Bus
  import opened Mmio
  import opened Execution

  // ----- interrupt lines -----

  /** Lines are numbered as the bits of IF and IE and as their vectors. */
  function Number(i: Interrupt): nat { if i.VBlank? then 0 else if i.LcdStat? then 1 else if i.TimerOverflow? then 2
                                       else if i.SerialDone? then 3 else 4 }

  /** A line is its bit of a register byte. */
  predicate Raised(byte: int, i: Interrupt) { HasBit(byte, Number(i)) }

  /** IF and IE keep the low five bits of what is written, and a line is acknowledged by clearing its bit alone. */
  lemma LinesAreBits(l: Lines, v: int, i: Interrupt, j: Interrupt)
    requires 0 <= v < 256
    ensures FromByte(v).Byte() == v % 32 && FromByte(l.Byte()) == l && 0 <= l.Byte() < 32
    ensures Raised(AcknowledgeLine(l, i).Byte(), j) <==> i != j && Raised(l.Byte(), j)
  {
    ByteRoundTrip(v);
    BackFromByte(l);
    Acknowledges(l, i, j);
  }

  lemma BackFromByte(l: Lines)
    ensures FromByte(l.Byte()) == l && 0 <= l.Byte() < 32
  {
  }

  /** The stored line behind a bit. */
  lemma BitOfLine(l: Lines)
    ensures Raised(l.Byte(), VBlank) == l.vblank && Raised(l.Byte(), LcdStat) == l.stat
    ensures Raised(l.Byte(), TimerOverflow) == l.timer && Raised(l.Byte(), SerialDone) == l.serial
    ensures Raised(l.Byte(), Joypad) == l.joypad
  {
    BackFromByte(l);
    assert Raised(l.Byte(), VBlank) == (l.Byte() / 1 % 2 == 1);
  }

  lemma Acknowledges(l: Lines, i: Interrupt, j: Interrupt)
    ensures Raised(AcknowledgeLine(l, i).Byte(), j) <==> i != j && Raised(l.Byte(), j)
  {
    hide Raised;
    BitOfLine(l);
    BitOfLine(AcknowledgeLine(l, i));
  }

  /** The interrupt served is the lowest bit set in both IF and IE, and there is one exactly when they meet. */
  lemma LowestServed(d: Device, i: Interrupt)
    ensures PendingInterrupt(d) == Some(i) <==>
            && Raised(d.request.Byte(), i) && Raised(d.enable.Byte(), i)
            && forall j: Interrupt :: Number(j) < Number(i) ==>
                 !Raised(d.request.Byte(), j) || !Raised(d.enable.Byte(), j)
    ensures i.Vector() == 0x40 + 8 * Number(i)
  {
    hide Raised, Lines.Byte;
    BitOfLine(d.request);
    BitOfLine(d.enable);
    var before := forall j: Interrupt :: Number(j) < Number(i) ==>
      !Raised(d.request.Byte(), j) || !Raised(d.enable.Byte(), j);
    match i
    case VBlank =>
    case LcdStat => assert before <==> !Both(d, VBlank);
    case TimerOverflow => assert before <==> !Both(d, VBlank) && !Both(d, LcdStat);
    case SerialDone => assert before <==> !Both(d, VBlank) && !Both(d, LcdStat) && !Both(d, TimerOverflow);
    case Joypad =>
      assert before <==> !Both(d, VBlank) && !Both(d, LcdStat) && !Both(d, TimerOverflow) && !Both(d, SerialDone);
  }

  predicate Both(d: Device, i: Interrupt) { Raised(d.request.Byte(), i) && Raised(d.enable.Byte(), i) }

  // ----- joypad -----

  /** The button byte seen through a selection: directions in the low four bits, actions in the high, pressed as one. */
  function Pressed(select: int, buttons: int, i: nat): bool
    requires i < 4
  {
    (select / 16 % 2 == 0 && HasBit(buttons, i)) || (select / 32 % 2 == 0 && HasBit(buttons, 4 + i))
  }

  /** P1 shows the selection, ones above it, and a zero for every line some selected group presses. */
  lemma JoypadVisible(select: int, buttons: int, i: nat)
    requires 0 <= select < 64 && select % 16 == 0 && 0 <= buttons < 256 && i < 4
    ensures HasBit(VisibleJoypad(select, buttons), i) <==> !Pressed(select, buttons, i)
    ensures VisibleJoypad(select, buttons) / 16 == 12 + select / 16 && 192 <= VisibleJoypad(select, buttons) < 256
  {
    LinesPressed(select, buttons, 0);
    LinesPressed(select, buttons, 1);
    LinesPressed(select, buttons, 2);
    LinesPressed(select, buttons, 3);
    hide JoypadLine, Pressed;
    Nibble(select / 16, JoypadLine(select, buttons, 0), JoypadLine(select, buttons, 1),
           JoypadLine(select, buttons, 2), JoypadLine(select, buttons, 3));
  }

  /** A byte built from a high part and four bits shows those bits. */
  lemma Nibble(high: int, a: bool, b: bool, c: bool, d: bool)
    requires 0 <= high < 4
    ensures
      var low := (if a then 1 else 0) + (if b then 2 else 0) + (if c then 4 else 0) + (if d then 8 else 0);
      var v := 0xc0 + 16 * high + low;
      HasBit(v, 0) == a && HasBit(v, 1) == b && HasBit(v, 2) == c && HasBit(v, 3) == d && v / 16 == 12 + high
  {
    FourBits(12 + high, if a then 1 else 0, if b then 1 else 0, if c then 1 else 0, if d then 1 else 0);
  }

  lemma FourBits(high: int, a: int, b: int, c: int, d: int)
    requires 0 <= a <= 1 && 0 <= b <= 1 && 0 <= c <= 1 && 0 <= d <= 1
    ensures
      var v := 16 * high + a + 2 * b + 4 * c + 8 * d;
      v / 1 % 2 == a && v / 2 % 2 == b && v / 4 % 2 == c && v / 8 % 2 == d && v / 16 == high
  {
    var v := 16 * high + a + 2 * b + 4 * c + 8 * d;
    OneBit(v, 1, 8 * high + b + 2 * c + 4 * d, a, 0);
    OneBit(v, 2, 4 * high + c + 2 * d, b, a);
    OneBit(v, 4, 2 * high + d, c, a + 2 * b);
    OneBit(v, 8, high, d, a + 2 * b + 4 * c);
    DivisionUnique(v, 16, high, a + 2 * b + 4 * c + 8 * d);
  }

  lemma OneBit(v: int, w: int, above: int, bit: int, below: int)
    requires v == w * (2 * above + bit) + below && 0 <= bit <= 1 && 0 <= below < w
    ensures v / w % 2 == bit
  {
    DivisionUnique(v, w, 2 * above + bit, below);
  }

  lemma LinesPressed(select: int, buttons: int, i: nat)
    requires 0 <= select < 64 && 0 <= buttons < 256 && i < 4
    ensures JoypadLine(select, buttons, i) <==> !Pressed(select, buttons, i)
  {
    assert HasBit(select, 4) <==> select / 16 % 2 == 1;
    assert HasBit(select, 5) <==> select / 32 % 2 == 1;
  }

  /** Some of the four input lines that were high in one P1 byte are low in the next. */
  predicate Falls(before: int, after: int) { exists i: nat :: i < 4 && HasBit(before, i) && !HasBit(after, i) }

  /** A joypad interrupt is requested exactly when an input line of P1 falls, by a selection or by a press. */
  lemma JoypadRequests(d: Device, value: int, buttons: int)
    requires d.Valid() && 0 <= value < 256 && 0 <= buttons < 256
    ensures
      var s, w := SampleJoypad(d, buttons), WriteMmio(d, 0xff00, value).value;
      var before := ReadMmio(d, 0xff00).value;
      && s.request == d.request.(joypad := d.request.joypad || Falls(before, ReadMmio(s, 0xff00).value))
      && w.request == d.request.(joypad := d.request.joypad || Falls(before, ReadMmio(w, 0xff00).value))
      && s == d.(joypadButtons := buttons, request := s.request)
      && w == d.(joypadSelect := value / 16 % 4 * 16, request := w.request)
  {
    hide JoypadFalls, Falls, VisibleJoypad, WriteMmio, ReadMmio, Device.Valid;
    var select := value / 16 % 4 * 16;
    Selection(d, value);
    FallsExactly(d.joypadSelect, d.joypadButtons, d.joypadSelect, buttons);
    FallsExactly(d.joypadSelect, d.joypadButtons, select, d.joypadButtons);
    JoypadShown(d);
    JoypadShown(SampleJoypad(d, buttons));
    SelectionWritten(d, value);
    JoypadShown(WriteMmio(d, 0xff00, value).value);
  }

  lemma Selection(d: Device, value: int)
    requires d.Valid() && 0 <= value < 256
    ensures 0 <= d.joypadSelect < 64 && d.joypadSelect % 16 == 0 && 0 <= d.joypadButtons < 256
    ensures 0 <= value / 16 % 4 * 16 < 64 && value / 16 % 4 * 16 % 16 == 0
  {
  }

  lemma JoypadShown(d: Device)
    ensures ReadMmio(d, 0xff00) == Some(VisibleJoypad(d.joypadSelect, d.joypadButtons))
  {
    hide VisibleJoypad, VisibleStatus;
  }

  lemma SelectionWritten(d: Device, value: int)
    ensures
      var select := value / 16 % 4 * 16;
      var falls := JoypadFalls(d.joypadSelect, d.joypadButtons, select, d.joypadButtons);
      WriteMmio(d, 0xff00, value)
      == Some(d.(joypadSelect := select, request := d.request.(joypad := d.request.joypad || falls)))
  {
    hide JoypadFalls, Ppu.Signal, FromByte;
  }

  lemma FallsExactly(select: int, buttons: int, select': int, buttons': int)
    requires 0 <= select < 64 && select % 16 == 0 && 0 <= buttons < 256
    requires 0 <= select' < 64 && select' % 16 == 0 && 0 <= buttons' < 256
    ensures JoypadFalls(select, buttons, select', buttons')
            <==> Falls(VisibleJoypad(select, buttons), VisibleJoypad(select', buttons'))
  {
    hide VisibleJoypad, JoypadLine, Pressed, HasBit;
    forall i: nat | i < 4
      ensures JoypadLine(select, buttons, i) <==> HasBit(VisibleJoypad(select, buttons), i)
      ensures JoypadLine(select', buttons', i) <==> HasBit(VisibleJoypad(select', buttons'), i)
    {
      JoypadVisible(select, buttons, i);
      JoypadVisible(select', buttons', i);
      LinesPressed(select, buttons, i);
      LinesPressed(select', buttons', i);
    }
  }

  // ----- registers through the bus -----

  /** A register written by the CPU reads back through the bus as `WriteThenRead` says, a sound register as written. */
  lemma RegisterHeld(auth: Authority, x: Exec, a: Address, v: Octet, b: Address)
    requires OwnerOf(a) == Owner.Registers && OwnerOf(b) == Owner.Registers && b != 0xff00 && x.vm.device.Valid()
    requires WriteData(auth, x, a, v).Ok?
    requires ReadData(auth, WriteData(auth, x, a, v).value, b).Ok?
    ensures
      var y := WriteData(auth, x, a, v).value;
      var value := ReadData(auth, y, b).value.value;
      if Audio(b) then value == (if a == b then v else if b in x.vm.audio then x.vm.audio[b] else 0)
      else WriteMmio(x.vm.device, a, v).Some? && ReadMmio(WriteMmio(x.vm.device, a, v).value, b).Some?
           && value == ReadMmio(WriteMmio(x.vm.device, a, v).value, b).value % 256
  {
    hide WriteMmio, Blocked, Implemented, ReadMmio;
    Visible(x.vm.device);
    if WriteMmio(x.vm.device, a, v).Some? { Visible(WriteMmio(x.vm.device, a, v).value); }
  }

  lemma Visible(d: Device)
    ensures forall a: int :: Audio(a) ==> ReadMmio(d, a).None?
    ensures forall a: int :: Implemented(a) && !Audio(a) ==> ReadMmio(d, a).Some?
  {
    hide VisibleJoypad, VisibleStatus;
  }
}
