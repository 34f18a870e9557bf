/** The thirteen registers a device-access row copies or overwrites as whole bytes. */
module StableRow {

  import opened Modulus
  import opened Field
  import opened Devices
  import opened Mmio
  import opened MmioRow

  /** Which written bits a register keeps. */
  datatype Mask = Whole | TimerBits | StatusBits {
    /** The masked value as the relation sums it from bit columns. */
    function Columns(value: seq<int>): int
      requires |value| == 8
    {
      match this
      case Whole => Packed(value)
      case TimerBits => value[0] + 2 * value[1] + 4 * value[2]
      case StatusBits => MaskedStatus(value)
    }

    function Of(value: int): int {
      match this case Whole => value case TimerBits => value % 8 case StatusBits => value / 8 % 16 * 8
    }
  }

  /** A register's address and the byte of the packed device columns that holds it. */
  datatype Register = Register(address: int, high: bool, byte: nat, mask: Mask)

  function Registers(): (rs: seq<Register>)
    ensures forall k :: 0 <= k < |rs| ==> Fits(rs[k])
  {
    [Register(0xff02, false, 1, Whole), Register(0xff06, false, 2, Whole), Register(0xff07, false, 3, TimerBits),
     Register(0xff40, false, 4, Whole), Register(0xff41, false, 5, StatusBits), Register(0xff42, false, 6, Whole),
     Register(0xff43, false, 7, Whole), Register(0xff45, true, 5, Whole), Register(0xff47, true, 0, Whole),
     Register(0xff48, true, 1, Whole), Register(0xff49, true, 2, Whole), Register(0xff4a, true, 3, Whole),
     Register(0xff4b, true, 4, Whole)]
  }

  predicate Fits(r: Register) { r.byte < (if r.high then 6 else 8) }

  /** The packed device columns of one side. */
  datatype Packs = Packs(low: seq<int>, high: seq<int>) {
    predicate Boolean() { |low| == 64 && |high| >= 48 && Bits(low) && Bits(high) }

    function Columns(r: Register): seq<int>
      requires |low| == 64 && |high| >= 48 && Fits(r)
    {
      if r.high then high[8 * r.byte..8 * r.byte + 8] else low[8 * r.byte..8 * r.byte + 8]
    }
  }

  /** Access columns: a write flag, one selector per address, and value bits. */
  datatype AccessColumns = AccessColumns(write: int, select: map<int, int>, value: seq<int>) {
    predicate Selects(a: Access) {
      && |value| == 8 && Bits(value) && write == AsBit(a.Write?)
      && (forall k :: 0 <= k < |Registers()| ==>
            Registers()[k].address in select && Bit(select[Registers()[k].address])
            && (a.Write? ==> select[Registers()[k].address] == AsBit(a.address == Registers()[k].address)))
      && (a.Write? ==> a.value == Packed(value))
    }
  }

  predicate RegisterIdentity(r: Register, before: Packs, after: Packs, c: AccessColumns)
    requires before.Boolean() && after.Boolean() && |c.value| == 8 && Fits(r) && r.address in c.select
  {
    ByteIdentity(Packed(after.Columns(r)), Packed(before.Columns(r)), c.select[r.address] * c.write,
                 r.mask.Columns(c.value))
  }

  lemma MaskMeans(m: Mask, value: seq<int>)
    requires |value| == 8 && Bits(value)
    ensures m.Columns(value) == m.Of(Packed(value)) && 0 <= m.Columns(value) < 256
  {
    ByteRange(value);
    MaskedStatusMeans(value);
    TimerMaskMeans(value);
    hide Packed, MaskedStatus;
  }

  lemma TimerMaskMeans(value: seq<int>)
    requires |value| == 8 && Bits(value)
    ensures value[0] + 2 * value[1] + 4 * value[2] == Packed(value) % 8
  {
    Packed8(value);
    hide Packed;
    assert Bit(value[0]) && Bit(value[1]) && Bit(value[2]);
    var low, rest := value[0] + 2 * value[1] + 4 * value[2],
      value[3] + 2 * value[4] + 4 * value[5] + 8 * value[6] + 16 * value[7];
    DivisionUnique(Packed(value), 8, rest, low);
  }

  /** The byte a device stores for a register. */
  function Stored(d: Device, address: int): int {
    match address
    case 0xff02 => d.serial.control
    case 0xff06 => d.timer.modulo
    case 0xff07 => d.timer.control
    case 0xff40 => d.ppu.lcdControl
    case 0xff41 => d.ppu.statControl
    case 0xff42 => d.plain.scrollY
    case 0xff43 => d.plain.scrollX
    case 0xff45 => d.ppu.lineCompare
    case 0xff47 => d.plain.bgPalette
    case 0xff48 => d.plain.objPalette0
    case 0xff49 => d.plain.objPalette1
    case 0xff4a => d.plain.windowY
    case 0xff4b => d.plain.windowX
    case _ => 0
  }

  /** The native write stores the masked byte in the addressed register and keeps the other twelve. */
  lemma WriteStores(d: Device, a: Access, k: nat)
    requires k < |Registers()|
    ensures
      var r := Registers()[k];
      Stored(Accessed(d, a), r.address)
      == if a.Write? && a.address == r.address then r.mask.Of(a.value) else Stored(d, r.address)
  {
    hide WriteRequest;
  }

  /** The identity of each register forces the byte the native write stores. */
  lemma StableTableForced(d: Device, a: Access, before: Packs, after: Packs, c: AccessColumns, k: nat)
    requires before.Boolean() && after.Boolean() && c.Selects(a) && k < |Registers()|
    requires Packed(before.Columns(Registers()[k])) == Stored(d, Registers()[k].address)
    requires RegisterIdentity(Registers()[k], before, after, c)
    ensures Packed(after.Columns(Registers()[k])) == Stored(Accessed(d, a), Registers()[k].address)
  {
    hide Packed, Registers, Accessed, Stored, Mask.Columns, Mask.Of;
    var r := Registers()[k];
    ByteRange(before.Columns(r));
    ByteRange(after.Columns(r));
    MaskMeans(r.mask, c.value);
    BitProduct(c.select[r.address], c.write);
    ByteForced(Packed(after.Columns(r)), Packed(before.Columns(r)), c.select[r.address] * c.write,
               r.mask.Columns(c.value));
    WriteStores(d, a, k);
  }
}
