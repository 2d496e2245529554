/** Mapper 1 (MMC1): a write-driven shift register routed by address into four
    registers, from which `update()` derives the mirroring mode and the PRG/CHR windows.

    The write path is modelled as the source has it: the shift step is
    `shiftRegister <<= 1; shiftRegister &= value & 1;`, which always leaves 0, so the
    "fifth write" early return never fires and every write with bit 7 clear commits 0. */
module Mmc1 {
  import opened Cartridge
  import opened Js

  /** `x >>> 1`: the unsigned 32-bit pattern of `x`, shifted right by one. */
  function UnsignedHalf(x: int): int {
    (x % 0x1_0000_0000) / 2
  }

  /** `x | 0b01100`: `|` first converts `x` to a signed 32-bit integer `y`, whose bits
      above bit 3 and two low bits are kept while bits 2 and 3 are set (Dafny's `/` and
      `%` are Euclidean, so `y / 16` and `y % 4` are those bits also for negative `y`). */
  function WithPrg16kLo(x: int): (r: int)
    ensures -0x8000_0000 <= r < 0x8000_0000
  {
    var y := Int32(x);
    16 * (y / 16) + 0x0c + y % 4
  }

  /** One shift step, `s = s << 1; s &= value & 1;`. */
  function ShiftIn(s: int, value: u8): int {
    var shifted := Int32(s * 2);
    // `shifted & (value & 1)`, where the right operand is 0 or 1
    if value % 2 == 0 then 0 else shifted % 2
  }

  /** The shift step always yields 0, whatever the register and the value: the shifted
      register is even and is masked with a single low bit. */
  lemma ShiftInIsZero(s: int, value: u8)
    ensures ShiftIn(s, value) == 0
  {
    var t := s * 2 + 0x8000_0000;
    var q := t / 0x1_0000_0000;
    assert t == 2 * (s + 0x4000_0000);
    assert t % 0x1_0000_0000 == t - q * 0x1_0000_0000;
    assert Int32(s * 2) == 2 * (s + 0x4000_0000 - q * 0x8000_0000) - 0x8000_0000;
    assert Int32(s * 2) == 2 * (s - q * 0x8000_0000);
  }

  datatype Registers = Registers(shiftRegister: int, control: int, chrLo: int, chrHi: int, prgPage: int)

  /** The register a committed write goes to, chosen by the address of the write. */
  datatype Target = Control | ChrLo | ChrHi | PrgPage

  function TargetOf(address: u16): Target {
    if address < 0xc000 then
      if address < 0xa000 then Control else ChrLo
    else
      if address < 0xe000 then ChrHi else PrgPage
  }

  function Store(r: Registers, t: Target, v: int): Registers {
    match t
    case Control => r.(control := v)
    case ChrLo => r.(chrLo := v)
    case ChrHi => r.(chrHi := v)
    case PrgPage => r.(prgPage := v)
  }

  /** What a write did besides changing registers. */
  datatype Step =
    | ResetShift     // bit 7 set: 32 KB page `prgPage >>> 1` loaded at $8000, no update()
    | Shifting       // early return after a shift step
    | Committed      // a register was written and update() ran

  /** The register effect of `write8(address, value)`. Bit 7 of the value alone decides
      whether the write resets the shift register; the early return of a write that
      leaves bit 7 of the shift register set never happens. */
  function Write(r: Registers, address: u16, value: u8): (w: (Registers, Step))
    ensures w.1 == ResetShift <==> value >= 0x80
    ensures w.1 != Shifting
  {
    if HasBit(value as int, 0x80) then
      (r.(shiftRegister := 0xf8, control := WithPrg16kLo(r.control)), ResetShift)
    else
      var s := ShiftIn(r.shiftRegister, value);
      ShiftInIsZero(r.shiftRegister, value);
      if HasBit(s, 0x80) then (r.(shiftRegister := s), Shifting)
      else (Store(r.(shiftRegister := s), TargetOf(address), s), Committed)
  }

  /** The digits of 16 * k + 12 + low: bits 2 and 3 are set, the low two bits are
      `low` and the bits from 4 up are `k`. */
  lemma Prg16kLoDigits(x: int, k: int, low: int)
    requires 0 <= low < 4 && x == 16 * k + 12 + low
    ensures HasBit(x, 0x04) && HasBit(x, 0x08) && x % 4 == low && x / 16 == k
  {
    assert x == 4 * (4 * k + 3) + low;
    assert x == 8 * (2 * k + 1) + 4 + low;
    assert x == 16 * k + (12 + low);
  }

  /** The mirroring bits of 32 * a + m are those of m. */
  lemma MirrorBitsOf(x: int, a: int, m: int)
    requires 0 <= m < 32 && x == 32 * a + m
    ensures x % 4 == m % 4
  {
    assert x == 4 * (8 * a + m / 4) + m % 4;
  }

  /** The CHR mode bit of 32 * a + m is set exactly when m >= 16. */
  lemma ChrBitOf(x: int, a: int, m: int)
    requires 0 <= m < 32 && x == 32 * a + m
    ensures HasBit(x, 0x10) == (m >= 16)
  {
    if m >= 16 {
      assert x == 16 * (2 * a + 1) + (m - 16);
    } else {
      assert x == 16 * (2 * a) + m;
    }
  }

  /** Two numbers that agree in their low five bits agree in the mirroring bits and in
      the CHR mode bit. */
  lemma LowBitsAgree(y: int, c: int)
    requires y % 32 == c % 32
    ensures y % 4 == c % 4 && HasBit(y, 0x10) == HasBit(c, 0x10)
  {
    MirrorBitsOf(y, y / 32, y % 32);
    MirrorBitsOf(c, c / 32, c % 32);
    ChrBitOf(y, y / 32, y % 32);
    ChrBitOf(c, c / 32, c % 32);
  }

  /** `control | 0b01100` sets both PRG mode bits and keeps the mirroring bits and the
      CHR mode bit, whatever the value of `control`. */
  lemma Prg16kLoBits(c: int)
    ensures HasBit(WithPrg16kLo(c), 0x04) && HasBit(WithPrg16kLo(c), 0x08)
    ensures WithPrg16kLo(c) % 4 == c % 4
    ensures HasBit(WithPrg16kLo(c), 0x10) == HasBit(c, 0x10)
  {
    var y := Int32(c);
    Int32LowBits(c);
    LowBitsAgree(y, c);
    Prg16kLoDigits(WithPrg16kLo(c), y / 16, y % 4);
  }

  /** A write with bit 7 set resets the shift register to 0xf8 and sets both PRG mode
      bits of `control`, keeping its mirroring and CHR bits; the bank registers stay. */
  lemma ResetWrite(r: Registers, address: u16, value: u8)
    requires value >= 0x80
    ensures var (r', step) := Write(r, address, value);
      && step == ResetShift
      && r'.shiftRegister == 0xf8
      && HasBit(r'.control, 0x04) && HasBit(r'.control, 0x08)
      && r'.control % 4 == r.control % 4
      && HasBit(r'.control, 0x10) == HasBit(r.control, 0x10)
      && r'.chrLo == r.chrLo && r'.chrHi == r.chrHi && r'.prgPage == r.prgPage
  {
    assert HasBit(value as int, 0x80);
    assert Write(r, address, value) == (r.(shiftRegister := 0xf8, control := WithPrg16kLo(r.control)), ResetShift);
    Prg16kLoBits(r.control);
  }

  /** A write with bit 7 clear stores 0 into the shift register and into the register
      its address selects, leaves the other three registers alone and runs update(). */
  lemma ClearWriteCommitsZero(r: Registers, address: u16, value: u8)
    requires value < 0x80
    ensures Write(r, address, value) == (Store(r.(shiftRegister := 0), TargetOf(address), 0), Committed)
    ensures address < 0xa000 ==> Write(r, address, value).0 == r.(shiftRegister := 0, control := 0)
    ensures 0xa000 <= address < 0xc000 ==> Write(r, address, value).0 == r.(shiftRegister := 0, chrLo := 0)
    ensures 0xc000 <= address < 0xe000 ==> Write(r, address, value).0 == r.(shiftRegister := 0, chrHi := 0)
    ensures 0xe000 <= address ==> Write(r, address, value).0 == r.(shiftRegister := 0, prgPage := 0)
  {
    ShiftInIsZero(r.shiftRegister, value);
    assert !HasBit(value as int, 0x80);
  }

  /** Any sequence of writes, in order. */
  function Writes(r: Registers, ws: seq<(u16, u8)>): Registers
    decreases |ws|
  {
    if ws == [] then r else Writes(Write(r, ws[0].0, ws[0].1).0, ws[1..])
  }

  /** Consequence of the shift step: starting with zero bank registers (as after reset),
      no sequence of writes ever stores anything but 0 into `chrLo`, `chrHi` or
      `prgPage`. */
  lemma {:induction false} BankRegistersStayZero(r: Registers, ws: seq<(u16, u8)>)
    requires r.chrLo == 0 && r.chrHi == 0 && r.prgPage == 0
    ensures var r' := Writes(r, ws); r'.chrLo == 0 && r'.chrHi == 0 && r'.prgPage == 0
    decreases |ws|
  {
    if ws != [] {
      var (a, v) := ws[0];
      if v < 0x80 {
        ClearWriteCommitsZero(r, a, v);
      } else {
        assert HasBit(v as int, 0x80);
      }
      BankRegistersStayZero(Write(r, a, v).0, ws[1..]);
    }
  }

  // ---------------------------------------------------------------------------
  // update()

  /** The PPU mirroring, and the PRG and CHR loads `update()` performs, keyed by the
      CPU resp. PPU address passed to `loadPrgPage` / `loadChrPage`. */
  datatype Decision = Decision(mirroring: Mirroring, prg: Layout, chr: Layout)

  /** `mirrorTypes[control & 3]`. */
  function MirroringOf(control: int): Mirroring {
    match control % 4
    case 0 => SingleScreenLower
    case 1 => SingleScreenUpper
    case 2 => Vertical
    case _ => Horizontal
  }

  function PrgLoads(control: int, prgPage: int): Layout {
    if HasBit(control, 0x08) then
      // (control & 0b01100) == 0b01100
      if HasBit(control, 0x04) then map[0x8000 := Load(prgPage, 0x4000), 0xc000 := Load(0xf, 0x4000)]
      else map[0x8000 := Load(0, 0x4000), 0xc000 := Load(prgPage, 0x4000)]
    else
      map[0x8000 := Load(UnsignedHalf(prgPage), 0x8000)]
  }

  function ChrLoads(control: int, chrLo: int, chrHi: int): Layout {
    if HasBit(control, 0x10) then map[0x0000 := Load(chrLo, 0x1000), 0x1000 := Load(chrHi, 0x1000)]
    else map[0x0000 := Load(UnsignedHalf(chrLo), 0x2000)]
  }

  /** `update()`: one of the four mirroring modes the table lists, and PRG and CHR
      loads that tile the $8000-$FFFF and $0000-$1FFF ranges in every mode. */
  function UpdateOf(r: Registers): (d: Decision)
    ensures d.mirroring != FourScreen
    ensures Tiles(d.prg, 0x8000, 0x1_0000) && Tiles(d.chr, 0, 0x2000)
  {
    PrgLoadsTile(r.control, r.prgPage);
    ChrModes(r.control, r.chrLo, r.chrHi);
    Decision(MirroringOf(r.control), PrgLoads(r.control, r.prgPage), ChrLoads(r.control, r.chrLo, r.chrHi))
  }

  /** The mirroring table: `control & 3` of 0, 1, 2, 3 selects single-screen lower,
      single-screen upper, vertical, horizontal; every value of `control` has a mode. */
  lemma MirroringTable(control: int)
    ensures MirroringOf(control) == [SingleScreenLower, SingleScreenUpper, Vertical, Horizontal][control % 4]
    ensures MirroringOf(control) != FourScreen
  {
  }

  /** PRG modes, by the two mode bits `(control >> 2) & 3`: 0 or 1 gives one 32 KB page
      `prgPage >>> 1` at $8000; 3 switches $8000 and fixes bank 0xf at $C000; 2 fixes
      bank 0 at $8000 and switches $C000. */
  lemma PrgModes(control: int, prgPage: int)
    ensures control / 4 % 4 < 2 ==> PrgLoads(control, prgPage) == map[0x8000 := Load(UnsignedHalf(prgPage), 0x8000)]
    ensures control / 4 % 4 == 3 ==>
      PrgLoads(control, prgPage) == map[0x8000 := Load(prgPage, 0x4000), 0xc000 := Load(0xf, 0x4000)]
    ensures control / 4 % 4 == 2 ==>
      PrgLoads(control, prgPage) == map[0x8000 := Load(0, 0x4000), 0xc000 := Load(prgPage, 0x4000)]
  {
    var q := control / 4;
    assert control / 8 == q / 2;
    assert q % 4 == 2 * (q / 2 % 2) + q % 2;
  }

  /** In every PRG mode the loads cover the whole $8000-$FFFF range, without overlap. */
  lemma PrgLoadsTile(control: int, prgPage: int)
    ensures Tiles(PrgLoads(control, prgPage), 0x8000, 0x1_0000)
  {
    var l := PrgLoads(control, prgPage);
    forall a | 0x8000 <= a < 0x1_0000
      ensures Covered(l, a)
    {
      var w := if HasBit(control, 0x08) && a >= 0xc000 then 0xc000 else 0x8000;
      assert w in l && w <= a < w + l[w].size;
    }
  }

  /** CHR modes: bit 4 set gives two 4 KB pages `chrLo` at $0000 and `chrHi` at $1000,
      otherwise one 8 KB page `chrLo >>> 1`; both cover the 8 KB pattern space. */
  lemma ChrModes(control: int, chrLo: int, chrHi: int)
    ensures HasBit(control, 0x10) ==>
      ChrLoads(control, chrLo, chrHi) == map[0x0000 := Load(chrLo, 0x1000), 0x1000 := Load(chrHi, 0x1000)]
    ensures !HasBit(control, 0x10) ==> ChrLoads(control, chrLo, chrHi) == map[0x0000 := Load(UnsignedHalf(chrLo), 0x2000)]
    ensures Tiles(ChrLoads(control, chrLo, chrHi), 0, 0x2000)
  {
    var l := ChrLoads(control, chrLo, chrHi);
    forall a | 0 <= a < 0x2000
      ensures Covered(l, a)
    {
      var w := if HasBit(control, 0x10) && a >= 0x1000 then 0x1000 else 0;
      assert w in l && w <= a < w + l[w].size;
    }
  }

  /** Since only 0 is ever committed, the bank registers stay 0, and the only pages
      `update()` ever loads are page 0 and, in PRG mode 3, the fixed PRG bank 0xf. */
  lemma PagesAfterWrites(r: Registers, ws: seq<(u16, u8)>)
    requires r.chrLo == 0 && r.chrHi == 0 && r.prgPage == 0
    ensures var d := UpdateOf(Writes(r, ws));
      && (forall w :: w in d.prg ==> d.prg[w].page == 0 || d.prg[w].page == 0xf)
      && (forall w :: w in d.chr ==> d.chr[w].page == 0)
  {
    BankRegistersStayZero(r, ws);
  }

  /** The fixed bank is reached: from zero bank registers, a reset write to $8000 sets
      PRG mode 3, and the `update()` of the next write loads bank 0xf at $C000. */
  lemma FixedBankAfterResetWrite(r: Registers)
    requires r.chrLo == 0 && r.chrHi == 0 && r.prgPage == 0
    ensures UpdateOf(Writes(r, [(0x8000, 0x80), (0xa000, 0)])).prg == map[0x8000 := Load(0, 0x4000), 0xc000 := Load(0xf, 0x4000)]
  {
    var ws: seq<(u16, u8)> := [(0x8000, 0x80), (0xa000, 0)];
    ResetWrite(r, 0x8000, 0x80);
    var r1 := Write(r, 0x8000, 0x80).0;
    ClearWriteCommitsZero(r1, 0xa000, 0);
    var r2 := Write(r1, 0xa000, 0).0;
    assert ws[1..][1..] == [];
    assert Writes(r, ws) == r2;
  }

  // ---------------------------------------------------------------------------
  // Savestate extension: the `mmc1` array

  function Snapshot(r: Registers): (s: seq<int>)
    ensures |s| == 5
  {
    [r.shiftRegister, r.control, r.chrLo, r.chrHi, r.prgPage]
  }

  /** `[shiftRegister, control, chrLo, chrHi, prgPage] = s` (extra entries are ignored). */
  function Restored(s: seq<int>): Registers
    requires |s| >= 5
  {
    Registers(s[0], s[1], s[2], s[3], s[4])
  }

  lemma JsonRoundTrip(r: Registers)
    ensures Restored(Snapshot(r)) == r
  {
  }

  /** The MMC1 chip with the bank switchers and mirroring output it drives. */
  class MMC1 {
    var shiftRegister: int
    var control: int
    var chrLo: int
    var chrHi: int
    var prgPage: int

    /** PRG switcher keyed by CPU address; CHR switcher keyed by PPU address. */
    var prg: Layout
    var chr: Layout
    /** The mode last passed to the PPU's `setMirroring`, if any. */
    var mirroring: Option<Mirroring>

    function Regs(): Registers
      reads this
    {
      Registers(shiftRegister, control, chrLo, chrHi, prgPage)
    }

    ghost predicate Valid()
      reads this
    {
      Within(prg, 0x8000, 0x1_0000) && Within(chr, 0, 0x2000)
    }

    /** After `update()` the switchers show exactly the windows it loads. */
    ghost predicate Settled()
      reads this
    {
      var d := UpdateOf(Regs());
      prg == d.prg && chr == d.chr && mirroring == Some(d.mirroring)
    }

    method Update()
      requires Valid()
      modifies this
      ensures Valid() && Settled() && Regs() == old(Regs())
    {
      var d := UpdateOf(Regs());
      mirroring := Some(d.mirroring);
      OverlayTiling(prg, d.prg, 0x8000, 0x1_0000);
      OverlayTiling(chr, d.chr, 0, 0x2000);
      prg := Overlay(prg, d.prg);
      chr := Overlay(chr, d.chr);
    }

    /** Power-on registers (the power-on `control` is given), then `update()`. */
    method Reset(powerOnControl: int)
      requires Valid()
      modifies this
      ensures Valid() && Settled()
      ensures Regs() == Registers(0xf8, powerOnControl, 0, 0, 0)
    {
      shiftRegister := 0xf8;
      control := powerOnControl;
      chrLo := 0;
      chrHi := 0;
      prgPage := 0;
      Update();
    }

    method InitializePrgRom()
      requires Valid()
      modifies this
      ensures Valid() && Settled() && Regs() == old(Regs())
    {
      Update();
    }

    method Write8(address: u16, value: u8)
      requires Valid()
      modifies this
      ensures Valid()
      ensures Regs() == Write(old(Regs()), address, value).0
      ensures Write(old(Regs()), address, value).1 == ResetShift ==>
        && prg == Swap(old(prg), 0x8000, UnsignedHalf(prgPage), 0x8000)
        && chr == old(chr) && mirroring == old(mirroring)
      ensures Write(old(Regs()), address, value).1 == Committed ==> Settled()
    {
      ghost var r := Regs();
      if HasBit(value as int, 0x80) {
        assert Write(r, address, value) == (r.(shiftRegister := 0xf8, control := WithPrg16kLo(control)), ResetShift);
        SwapWithin(prg, 0x8000, UnsignedHalf(prgPage), 0x8000, 0x8000, 0x1_0000);
        shiftRegister := 0xf8;
        control := WithPrg16kLo(control);
        prg := Swap(prg, 0x8000, UnsignedHalf(prgPage), 0x8000);
        return;
      }
      shiftRegister := ShiftIn(shiftRegister, value);
      if HasBit(shiftRegister, 0x80) {
        // never taken: the shift step always leaves 0 (`ShiftInIsZero`)
        assert false;
        return;
      }
      assert Write(r, address, value) == (Store(Regs(), TargetOf(address), shiftRegister), Committed);
      Commit(address);
    }

    /** The end of `write8`: the shift register's value goes to the register the
        address selects, then `update()` runs. */
    method Commit(address: u16)
      requires Valid()
      modifies this
      ensures Valid() && Settled()
      ensures Regs() == Store(old(Regs()), TargetOf(address), old(shiftRegister))
    {
      if address < 0xc000 {
        if address < 0xa000 {
          control := shiftRegister;
        } else {
          chrLo := shiftRegister;
        }
      } else {
        if address < 0xe000 {
          chrHi := shiftRegister;
        } else {
          prgPage := shiftRegister;
        }
      }
      Update();
    }

    method ToJson() returns (s: seq<int>)
      ensures s == Snapshot(Regs())
    {
      s := [shiftRegister, control, chrLo, chrHi, prgPage];
    }

    method FromJson(s: seq<int>)
      requires Valid() && |s| >= 5
      modifies this
      ensures Valid() && Settled()
      ensures Regs() == Restored(s)
    {
      shiftRegister, control, chrLo, chrHi, prgPage := s[0], s[1], s[2], s[3], s[4];
      Update();
    }
  }
}
