/** Laws of the address map: bank isolation, what a store changes, and that DMA and the CPU see the same bytes. */
module BusLaws {

  import opened Wrappers
  import opened Devices
  import opened Bus

  // ----- ROM banks -----

  /** The switchable window never shows one byte at two places, and never a byte of the fixed window. */
  lemma RomBanksApart(p: Profile, m: Mapper, n: Mapper, a: int, b: int)
    requires m.Valid(p) && n.Valid(p) && 0x4000 <= a <= 0x7fff && 0x4000 <= b <= 0x7fff
    ensures m.MapRom(a) == n.MapRom(b) <==> m.romBank == n.romBank && a == b
    ensures forall c :: 0 <= c < 0x4000 ==> m.MapRom(c) != n.MapRom(b)
    ensures m.MapRom(a) < p.Banks() * 0x4000
  {
  }

  /** The page a bank-select byte names: its low bank bits, and page one for zero. */
  function PageOf(p: Profile, value: int): int {
    var bits := value % (if p.oneMebibyte then 64 else 16);
    if bits == 0 then 1 else bits
  }

  /** After a bank select the window shows that page of the ROM; no other control write moves it. */
  lemma BankSelected(p: Profile, m: Mapper, address: int, value: int, a: int)
    requires m.Valid(p) && 0 <= address <= 0x7fff && 0 <= value < 256 && 0x4000 <= a <= 0x7fff
    ensures
      var n := m.Control(p, address, value);
      if 0x2000 <= address <= 0x3fff then n.MapRom(a) / 0x4000 == PageOf(p, value) && n.MapRom(a) % 0x4000 == a % 0x4000
      else n.MapRom(a) == m.MapRom(a)
  {
  }

  // ----- RAM banks -----

  /** The memory cell behind an address the CPU can load and store. */
  function CellOf(p: Profile, m: Mapper, a: int): Option<int> {
    if !ExternalArea(a) then if OwnerOf(a) == MemoryArea then Some(a) else None
    else match m.External(p, a) case Ram(physical) => Some(physical) case _ => None
  }

  /** One cell has one address, and in the window one selection: no two banks overlap, nor any bank and plain memory. */
  lemma CellsApart(p: Profile, m: Mapper, n: Mapper, a: int, b: int)
    requires 0 <= a < 0x10000 && 0 <= b < 0x10000 && m.Valid(p) && n.Valid(p)
    requires CellOf(p, m, a).Some? && CellOf(p, n, b).Some?
    ensures CellOf(p, m, a) == CellOf(p, n, b) <==> a == b && (ExternalArea(a) ==> m.select == n.select)
    ensures CellOf(p, m, a).value < 0x10000 <==> !ExternalArea(a)
    ensures 0x8000 <= CellOf(p, m, a).value < 0x18000
  {
  }

  /** The window opens exactly by ten in the low digit of the enable byte, and for selections up to three. */
  lemma WindowOpens(p: Profile, m: Mapper, enable: int, gate: int, select: int, bank: int, a: int)
    requires 0 <= enable <= 0x1fff && 0x4000 <= select <= 0x5fff && 0 <= gate < 256 && 0 <= bank < 256
    requires ExternalArea(a)
    ensures CellOf(p, m.Control(p, enable, gate).Control(p, select, bank), a).Some? <==>
            gate % 16 == 10 && bank % 16 < 4
  {
  }

  // ----- loads, stores and DMA -----

  /** The byte at an address as the CPU loads it, gating aside. */
  function VisibleByte(m: Machine, a: int): Option<int> {
    if OwnerOf(a) == RomArea then Some(At(m.rom, m.mapper.MapRom(a)))
    else
      match CellOf(m.profile, m.mapper, a)
      case None => None
      case Some(cell) => Some(At(m.memory, cell))
  }

  /** A store changes the byte at its address and no other. */
  lemma StoreSeen(m: Machine, a: int, v: int, b: int)
    requires 0 <= a < 0x10000 && 0 <= b < 0x10000 && m.mapper.Valid(m.profile)
    requires CellOf(m.profile, m.mapper, a).Some? && StoreAt(m, a, v).Ok?
    ensures VisibleByte(StoreAt(m, a, v).value, b) == if a == b then Some(v) else VisibleByte(m, b)
  {
    hide Blocked, Mapper.External;
    if CellOf(m.profile, m.mapper, b).Some? { CellsApart(m.profile, m.mapper, m.mapper, a, b); }
  }

  /** DMA reads the bytes the CPU sees, wherever a source can lie. */
  lemma SourceIsVisible(m: Machine, a: int)
    requires 0 <= a
    ensures SourceByte(m, a).Ok? <==> a <= 0xdf9f && VisibleByte(m, a).Some?
    ensures SourceByte(m, a).Ok? ==> VisibleByte(m, a) == Some(SourceByte(m, a).value)
  {
    hide Mapper.External, Mapper.MapRom;
  }

  /** So DMA sees an accepted store to any memory it can read. */
  lemma SourceSeesStore(m: Machine, a: int, v: int)
    requires 0 <= a <= 0xdf9f && m.mapper.Valid(m.profile)
    requires CellOf(m.profile, m.mapper, a).Some? && StoreAt(m, a, v).Ok?
    ensures SourceByte(StoreAt(m, a, v).value, a) == Ok(v)
  {
    hide StoreAt, SourceByte, VisibleByte;
    StoreSeen(m, a, v, a);
    SourceIsVisible(StoreAt(m, a, v).value, a);
  }

  /** The machine under another RAM selection. */
  function Selecting(m: Machine, bank: int): Machine { m.(mapper := m.mapper.(select := bank)) }

  /** A byte stored under one selection survives a store under any other, and is there when it is selected again. */
  lemma BanksSurvive(m: Machine, one: int, a: int, v: int, two: int, b: int, w: int)
    requires m.mapper.Valid(m.profile) && 0 <= one <= 15 && 0 <= two <= 15 && one != two && ExternalArea(a)
    requires 0 <= b < 0x10000
    requires StoreAt(Selecting(m, one), a, v).Ok? && CellOf(m.profile, m.mapper.(select := one), a).Some?
    requires
      var n := Selecting(StoreAt(Selecting(m, one), a, v).value, two);
      StoreAt(n, b, w).Ok? && CellOf(m.profile, n.mapper, b).Some?
    ensures
      var n := Selecting(StoreAt(Selecting(m, one), a, v).value, two);
      VisibleByte(Selecting(StoreAt(n, b, w).value, one), a) == Some(v)
  {
    hide Blocked, Mapper.External;
    CellsApart(m.profile, m.mapper.(select := one), m.mapper.(select := two), a, b);
  }

  // ----- instruction fetches -----

  /**
    * Instruction fetches bypass the cartridge mapping: whatever byte is stored at a memory address, the fetch from
    * there returns it, exactly when the address lies outside A000-BFFF.
    */
  lemma FetchSeesStoreExactly(m: Machine, a: int)
    requires 0 <= a < 0x10000 && m.mapper.Valid(m.profile) && CellOf(m.profile, m.mapper, a).Some?
    requires Blocked(m.device, a).None?
    ensures forall v :: StoreAt(m, a, v).Ok? && StoreAt(m, a, v).value.device == m.device
    ensures (forall v :: 0 <= v < 256 ==> FetchAt(StoreAt(m, a, v).value, a) == Ok(v)) <==> !ExternalArea(a)
  {
    hide Blocked, Mapper.External;
    if ExternalArea(a) {
      CellsApart(m.profile, m.mapper, m.mapper, a, a);
      var v := if At(m.memory, a) == 0 then 1 else 0;
      assert FetchAt(StoreAt(m, a, v).value, a) == Ok(At(m.memory, a));
    }
  }

  // ----- gating -----

  /** Video memory is closed exactly in mode three and object memory in modes two and three of a visible line. */
  lemma VideoGating(d: Device, a: int)
    requires !d.dma.active && d.ppu.Valid()
    ensures 0x8000 <= a <= 0x9fff ==>
              (Blocked(d, a).None? <==>
               !d.ppu.Enabled() || d.ppu.Position() >= VBlankTCycle || d.ppu.dot < 80 || d.ppu.dot >= 252)
    ensures ObjectRam(a) ==>
            (Blocked(d, a).None? <==> !d.ppu.Enabled() || d.ppu.Position() >= VBlankTCycle || d.ppu.dot >= 252)
    ensures !(0x8000 <= a <= 0x9fff) && !ObjectRam(a) ==> Blocked(d, a).None?
  {
  }

  /** While a transfer runs the CPU reaches high RAM and nothing else. */
  lemma DmaGating(d: Device, a: int)
    requires d.dma.active
    ensures Blocked(d, a).None? <==> 0xff80 <= a <= 0xfffe
  {
  }
}
