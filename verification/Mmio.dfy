/** CPU-visible device registers: reads, writes with their immediate interrupt edges, and reachable states. */
module Mmio {

  import opened Wrappers
  import opened Timer
  import opened Devices

  // ----- joypad -----

  function BitWeight(i: nat): int
    requires i < 8
  {
    [1, 2, 4, 8, 16, 32, 64, 128][i]
  }

  predicate HasBit(v: int, i: nat)
    requires i < 8
  {
    v / BitWeight(i) % 2 == 1
  }

  /** Input line `i` of P1 is high unless a selected button group pulls it low. */
  predicate JoypadLine(select: int, buttons: int, i: nat)
    requires i < 4
  {
    !(!HasBit(select, 4) && HasBit(buttons, i)) && !(!HasBit(select, 5) && HasBit(buttons, 4 + i))
  }

  function VisibleJoypad(select: int, buttons: int): int {
    0xc0 + select + (if JoypadLine(select, buttons, 0) then 1 else 0)
      + (if JoypadLine(select, buttons, 1) then 2 else 0)
    + (if JoypadLine(select, buttons, 2) then 4 else 0) + (if JoypadLine(select, buttons, 3) then 8 else 0)
  }

  /** Some input line was high before and is low after. */
  predicate JoypadFalls(select: int, buttons: int, select': int, buttons': int) {
    exists i: nat :: i < 4 && JoypadLine(select, buttons, i) && !JoypadLine(select', buttons', i)
  }

  function SampleJoypad(d: Device, buttons: int): Device {
    var falls := JoypadFalls(d.joypadSelect, d.joypadButtons, d.joypadSelect, buttons);
    d.(joypadButtons := buttons, request := d.request.(joypad := d.request.joypad || falls))
  }

  // ----- registers -----

  function VisibleStatus(p: Ppu): int {
    0x80 + p.statControl + (if p.line == p.lineCompare then 4 else 0) + p.Mode()
  }

  predicate Audio(address: int) { 0xff10 <= address <= 0xff3f }

  predicate Implemented(address: int) {
    address in {0xff00, 0xff01, 0xff02, 0xff04, 0xff05, 0xff06, 0xff07, 0xff0f, 0xffff}
    || Audio(address) || 0xff40 <= address <= 0xff4b
  }

  /** The visible byte of a modelled register; audio registers are not modelled. */
  function ReadMmio(d: Device, address: int): Option<int> {
    match address
    case 0xff00 => Some(VisibleJoypad(d.joypadSelect, d.joypadButtons))
    case 0xff01 => Some(d.serial.data)
    case 0xff02 => Some(d.serial.control)
    case 0xff0f => Some(0xe0 + d.request.Byte())
    case 0xff40 => Some(d.ppu.lcdControl)
    case 0xff41 => Some(VisibleStatus(d.ppu))
    case 0xff42 => Some(d.plain.scrollY)
    case 0xff43 => Some(d.plain.scrollX)
    case 0xff44 => Some(d.ppu.line)
    case 0xff45 => Some(d.ppu.lineCompare)
    case 0xff46 => Some(d.dma.sourceHigh)
    case 0xff47 => Some(d.plain.bgPalette)
    case 0xff48 => Some(d.plain.objPalette0)
    case 0xff49 => Some(d.plain.objPalette1)
    case 0xff4a => Some(d.plain.windowY)
    case 0xff4b => Some(d.plain.windowX)
    case 0xffff => Some(d.enable.Byte())
    case _ => if 0xff04 <= address <= 0xff07 then Some(d.timer.Read(address)) else None
  }

  function WriteLcdControl(p: Ppu, value: int): Ppu {
    var q := p.(lcdControl := value);
    if q.Enabled() then q else q.(line := 0, dot := 0)
  }

  /** The PPU registers after a write, before any clock tick. */
  function WritePpu(p: Ppu, address: int, value: int): (q: Ppu)
    ensures address != 0xff40 && address != 0xff41 && address != 0xff45 ==> q == p
  {
    if address == 0xff40 then WriteLcdControl(p, value)
    else if address == 0xff41 then p.(statControl := value / 8 % 16 * 8)
    else if address == 0xff45 then p.(lineCompare := value)
    else p
  }

  function WriteSerial(s: Serial, address: int, value: int): (r: Serial)
    ensures address != 0xff01 && address != 0xff02 ==> r == s
  {
    if address == 0xff01 then s.(data := value)
    else if address == 0xff02 then s.(control := value, remaining := if value >= 128 && value % 2 == 1 then 4096 else 0)
    else s
  }

  function WritePlain(r: Plain, address: int, value: int): (q: Plain)
    ensures address < 0xff42 || address > 0xff4b || 0xff44 <= address <= 0xff46 ==> q == r
  {
    match address
    case 0xff42 => r.(scrollY := value)
    case 0xff43 => r.(scrollX := value)
    case 0xff47 => r.(bgPalette := value)
    case 0xff48 => r.(objPalette0 := value)
    case 0xff49 => r.(objPalette1 := value)
    case 0xff4a => r.(windowY := value)
    case 0xff4b => r.(windowX := value)
    case _ => r
  }

  /** IF after a write: FF0F replaces it, a PPU write may raise STAT at once, a P1 write may raise joypad. */
  function WriteRequest(d: Device, address: int, value: int): (l: Lines)
    ensures address != 0xff00 && address != 0xff0f && address != 0xff40 && address != 0xff41 && address != 0xff45 ==>
            l == d.request
  {
    if address == 0xff0f then FromByte(value)
    else if address == 0xff40 || address == 0xff41 || address == 0xff45 then
      d.request.(stat := d.request.stat || (!d.ppu.Signal() && WritePpu(d.ppu, address, value).Signal()))
    else if address == 0xff00 then
      d.request.(joypad := d.request.joypad
                           || JoypadFalls(d.joypadSelect, d.joypadButtons, value / 16 % 4 * 16, d.joypadButtons))
    else d.request
  }

  /** `write_mmio`; `None` when no register is implemented at the address. */
  function WriteMmio(d: Device, address: int, value: int): Option<Device> {
    if !Implemented(address) then None
    else Some(d.(
      request := WriteRequest(d, address, value),
      enable := if address == 0xffff then FromByte(value) else d.enable,
      serial := WriteSerial(d.serial, address, value),
      timer := d.timer.Write(address, value),
      ppu := WritePpu(d.ppu, address, value),
      plain := WritePlain(d.plain, address, value),
      joypadSelect := if address == 0xff00 then value / 16 % 4 * 16 else d.joypadSelect,
      dma := if address == 0xff46 then Dma(value, 0, true, 0) else d.dma))
  }

  // ----- reachable device states -----

  const PostBoot := Device(
    Lines(true, false, false, false, false), NoLines, Serial(0, 0x7e, 0), PostBootTimer,
    Ppu(0x91, 0, 0, 0, 0), Plain(0, 0, 0xfc, 0xff, 0xff, 0, 0), 0, 0, Dma(0, 0, false, 0))

  /** What one machine step can do to the devices, in the order the steps do it. */
  datatype Action =
    | Write(address: int, value: int)
    | Sample(buttons: int)
    | Acknowledge(line: Interrupt)
    | Clock(mCycles: nat, dmaActiveAtStart: bool)
    | Skip(longCycles: nat)
    | CopyByte

  function AcknowledgeLine(l: Lines, i: Interrupt): Lines {
    match i
    case VBlank => l.(vblank := false)
    case LcdStat => l.(stat := false)
    case TimerOverflow => l.(timer := false)
    case SerialDone => l.(serial := false)
    case Joypad => l.(joypad := false)
  }

  function Apply(d: Device, a: Action): Device {
    match a
    case Write(address, value) => if WriteMmio(d, address, value).Some? then WriteMmio(d, address, value).value else d
    case Sample(buttons) => SampleJoypad(d, buttons)
    case Acknowledge(i) => d.(request := AcknowledgeLine(d.request, i))
    case Clock(m, active) => d.AdvanceM(m).(dma := d.dma.Schedule(m, active))
    case Skip(m) => QuietLong(d, m)
    case CopyByte => d.(dma := d.dma.Complete())
  }

  /** The bounds machine steps respect: byte-valued writes only outside an active transfer, at most six M-cycles
      between byte copies, copies only while bytes are owed. */
  predicate Permitted(d: Device, a: Action) {
    match a
    case Write(address, value) => 0 <= value < 256 && (d.dma.active ==> address != 0xff46)
    case Sample(buttons) => 0 <= buttons < 256
    case Acknowledge(_) => true
    case Clock(m, active) => m <= 6 && d.dma.owed == 0 && (active ==> d.dma.active)
    case Skip(_) => true
    case CopyByte => d.dma.owed > 0
  }

  lemma ApplyKeepsValid(d: Device, a: Action)
    requires d.Valid() && Permitted(d, a)
    ensures Apply(d, a).Valid()
  {
    hide Ticks, Requested, PpuTicks, VBlankRaised, StatRaised, JoypadFalls, WriteRequest, Ppu.Signal, QuietLong,
         TimerState.Tick;
    match a
    case Write(address, value) =>
    case Clock(m, active) => AdvanceValid(d, if 4 * m > 255 then 255 else 4 * m);
    case Skip(m) =>
      QuietLongIsSingleSteps(d, m);
      AdvanceValid(d, 4 * m);
    case _ =>
  }

  /**
    * What a register shows right after a write: the byte, its implemented bits, zero in FF04, the modulus in FF05
    * during the reload cycle, the lines of the selected buttons in FF00, the PPU's own status bits in FF41; FF44 is
    * read only.
    */
  lemma WriteThenRead(d: Device, address: int, value: int)
    requires d.Valid() && 0 <= value < 256 && WriteMmio(d, address, value).Some? && !Audio(address)
    ensures
      var n := WriteMmio(d, address, value).value;
      ReadMmio(n, address) == Some(
        match address
        case 0xff00 => VisibleJoypad(value / 16 % 4 * 16, d.joypadButtons)
        case 0xff04 => 0
        case 0xff05 => if d.timer.reloadPhase == 5 then d.timer.modulo else value
        case 0xff07 => 0xf8 + value % 8
        case 0xff0f => 0xe0 + value % 32
        case 0xff41 => VisibleStatus(d.ppu) - d.ppu.statControl + value / 8 % 16 * 8
        case 0xff44 => d.ppu.line
        case 0xffff => value % 32
        case _ => value)
  {
    hide JoypadFalls, Ppu.Signal, VisibleJoypad;
    ByteRoundTrip(value);
  }

  /** The registers a write to `address` can change besides its own. */
  function Disturbed(address: int): set<int> {
    match address
    case 0xff00 => {0xff0f}
    case 0xff06 => {0xff05}
    case 0xff40 => {0xff0f, 0xff41, 0xff44}
    case 0xff41 => {0xff0f}
    case 0xff45 => {0xff0f, 0xff41}
    case _ => {}
  }

  /** Every other register still shows what it showed. */
  lemma WriteLeavesOthers(d: Device, address: int, value: int, other: int)
    requires WriteMmio(d, address, value).Some? && other != address && other !in Disturbed(address)
    ensures ReadMmio(WriteMmio(d, address, value).value, other) == ReadMmio(d, other)
  {
    hide JoypadFalls, Ppu.Signal, Ppu.Mode, VisibleJoypad;
  }

  lemma ByteRoundTrip(v: int)
    requires 0 <= v < 256
    ensures FromByte(v).Byte() == v % 32
  {
    var a := v / 2;
    var b := a / 2;
    var c := b / 2;
    var d := c / 2;
    assert v / 4 == b && v / 8 == c && v / 16 == d && v / 32 == d / 2;
  }
}
