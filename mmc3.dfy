/** Mapper 4 (MMC3): direct bank-select / bank-data registers, a mirroring register and
    a scanline-clocked IRQ down-counter. */
module Mmc3 {
  import opened Cartridge

  /** What the `irqEnable` field holds. The constructor stores the boolean `true`;
      $E000 and $E001 store the numbers 0 and 1. Clocking tests `=== 1`, so only `One`
      enables it. */
  datatype EnableFlag = PowerOnTrue | Zero | One

  /** The register a CPU write reaches, chosen by the address masked with 0xe001. */
  datatype Register =
    | SelectBank      // $8000
    | BankData        // $8001, and every masked address below $A000 other than $8000
    | MirroringSelect // $A000
    | SaveRamToggle   // $A001: no effect
    | IrqLatch        // $C000
    | IrqReload       // $C001
    | IrqOff          // $E000
    | IrqOn           // $E001

  /** `addr & 0xe001`: bits 13-15 and bit 0 of the address. */
  function Masked(addr: u16): int {
    (addr as int / 0x2000) * 0x2000 + addr as int % 2
  }

  function Decode(addr: u16): Register {
    var a := Masked(addr);
    if a < 0xc000 then
      if a < 0xa000 then (if a == 0x8000 then SelectBank else BankData)
      else (if a == 0xa000 then MirroringSelect else SaveRamToggle)
    else
      if a < 0xe000 then (if a == 0xc000 then IrqLatch else IrqReload)
      else (if a == 0xe000 then IrqOff else IrqOn)
  }

  /** The eight registers of the $8000–$FFFF range, as an even/odd pair per 8 KB. */
  const RegisterMap: seq<Register> :=
    [SelectBank, BankData, MirroringSelect, SaveRamToggle, IrqLatch, IrqReload, IrqOff, IrqOn]

  /** The register is chosen by the 8 KB region of the address and its lowest bit alone;
      writes below $8000 all land on the bank-data register. */
  lemma DecodeByRegion(addr: u16)
    ensures addr >= 0x8000 ==> Decode(addr) == RegisterMap[2 * ((addr as int - 0x8000) / 0x2000) + addr as int % 2]
    ensures addr < 0x8000 ==> Decode(addr) == BankData
  {
    var q := addr as int / 0x2000;
    assert 0 <= q < 8;
    if addr >= 0x8000 {
      assert (addr as int - 0x8000) / 0x2000 == q - 4;
    }
  }

  /** The register file of the chip. */
  datatype Registers = Registers(
    bankSelect: u8,
    banks: seq<u8>,
    irqLatchValue: u8,
    irqCounter: int,
    irqEnable: EnableFlag)

  /** Eight bank registers; the counter holds a byte between clocks. */
  ghost predicate WellFormed(r: Registers) {
    |r.banks| == 8 && 0 <= r.irqCounter < 0x100
  }

  /** The registers after construction. */
  function PowerOn(): (r: Registers)
    ensures WellFormed(r)
  {
    Registers(0, [0, 0, 0, 0, 0, 0, 0, 0], 0, 0, PowerOnTrue)
  }

  /** The register effect of `write8(addr, value)`. Each register changes only through
      its own address (the latch also through $C000, the counter through $C000 and
      $C001), and there stay eight bank slots. */
  function Write(r: Registers, addr: u16, value: u8): (w: Registers)
    requires |r.banks| == 8
    ensures |w.banks| == 8
    ensures w.bankSelect != r.bankSelect ==> Decode(addr) == SelectBank
    ensures w.banks != r.banks ==> Decode(addr) == BankData
    ensures w.irqLatchValue != r.irqLatchValue ==> Decode(addr) == IrqLatch
    ensures w.irqCounter != r.irqCounter ==> Decode(addr) == IrqLatch || Decode(addr) == IrqReload
    ensures w.irqEnable != r.irqEnable ==> Decode(addr) == IrqOff || Decode(addr) == IrqOn
  {
    match Decode(addr)
    case SelectBank => r.(bankSelect := value)
    case BankData => r.(banks := r.banks[r.bankSelect as int % 8 := value])
    case MirroringSelect => r
    case SaveRamToggle => r
    case IrqLatch => r.(irqLatchValue := value, irqCounter := value as int)
    case IrqReload => r.(irqCounter := r.irqLatchValue as int)
    case IrqOff => r.(irqEnable := Zero)
    case IrqOn => r.(irqEnable := One)
  }

  /** A write keeps the register file well formed. */
  lemma WriteValid(r: Registers, addr: u16, value: u8)
    requires WellFormed(r)
    ensures WellFormed(Write(r, addr, value))
  {
  }

  /** $8000 (after masking): only the bank-select register changes. */
  lemma WriteBankSelect(r: Registers, addr: u16, value: u8)
    requires |r.banks| == 8 && Masked(addr) == 0x8000
    ensures Write(r, addr, value) == r.(bankSelect := value)
  {
  }

  /** $8001 (and every other masked address below $A000): only bank slot
      `bankSelect & 7` changes; the other seven slots and the selector are kept. */
  lemma WriteBankData(r: Registers, addr: u16, value: u8)
    requires |r.banks| == 8 && Masked(addr) < 0xa000 && Masked(addr) != 0x8000
    ensures var r' := Write(r, addr, value);
      && r'.bankSelect == r.bankSelect
      && |r'.banks| == 8
      && r'.banks[r.bankSelect as int % 8] == value
      && (forall k :: 0 <= k < 8 && k != r.bankSelect as int % 8 ==> r'.banks[k] == r.banks[k])
      && r'.irqLatchValue == r.irqLatchValue && r'.irqCounter == r.irqCounter && r'.irqEnable == r.irqEnable
  {
  }

  /** $A000 and $A001 leave every register as it was. */
  lemma WriteMirroringKeepsRegisters(r: Registers, addr: u16, value: u8)
    requires |r.banks| == 8 && 0xa000 <= Masked(addr) < 0xc000
    ensures Write(r, addr, value) == r
  {
  }

  /** $C000 sets latch and counter to the value; $C001 copies the latch into the counter
      and keeps the latch. */
  lemma WriteIrqLatchAndReload(r: Registers, addr: u16, value: u8)
    requires |r.banks| == 8 && 0xc000 <= Masked(addr) < 0xe000
    ensures Masked(addr) == 0xc000 ==> Write(r, addr, value) == r.(irqLatchValue := value, irqCounter := value as int)
    ensures Masked(addr) == 0xc001 ==> Write(r, addr, value) == r.(irqCounter := r.irqLatchValue as int)
  {
  }

  /** $E000 disables and $E001 enables the counter, touching neither counter nor latch. */
  lemma WriteIrqControl(r: Registers, addr: u16, value: u8)
    requires |r.banks| == 8 && Masked(addr) >= 0xe000
    ensures Write(r, addr, value).irqEnable == (if Masked(addr) == 0xe000 then Zero else One)
    ensures Write(r, addr, value) == r.(irqEnable := Write(r, addr, value).irqEnable)
  {
  }

  /** The mode $A000 selects on the PPU: bit 0 set means horizontal. */
  function MirroringFor(value: u8): Mirroring {
    if value % 2 != 0 then Horizontal else Vertical
  }

  // ---------------------------------------------------------------------------
  // Scanline IRQ counter

  /** One `clockIrqCounter()`: the new registers and whether an IRQ was requested. Only
      the counter changes; an IRQ is requested exactly when the counter is enabled and
      drops below 0, and then the counter is reloaded from the latch. */
  function Clock(r: Registers): (c: (Registers, bool))
    ensures c.0 == r.(irqCounter := c.0.irqCounter)
    ensures c.1 <==> r.irqEnable == One && r.irqCounter <= 0
    ensures c.1 ==> c.0.irqCounter == r.irqLatchValue as int
  {
    if r.irqEnable != One then (r, false)
    else if r.irqCounter - 1 < 0 then (r.(irqCounter := r.irqLatchValue as int), true)
    else (r.(irqCounter := r.irqCounter - 1), false)
  }

  /** `n` clocks in a row: the final registers and the number of IRQs requested, at most
      one per clock; still only the counter changes. */
  function Clocks(r: Registers, n: nat): (c: (Registers, nat))
    ensures c.0 == r.(irqCounter := c.0.irqCounter)
    ensures c.1 <= n
    decreases n
  {
    if n == 0 then (r, 0)
    else
      var (r1, irq) := Clock(r);
      var (r2, k) := Clocks(r1, n - 1);
      (r2, k + if irq then 1 else 0)
  }

  /** Between clocks the counter stays a byte. */
  lemma ClockValid(r: Registers)
    requires WellFormed(r)
    ensures WellFormed(Clock(r).0)
  {
  }

  /** Unless `irqEnable` is the number 1 (so also right after construction, when it is
      `true`), clocking changes nothing and requests nothing. */
  lemma {:induction false} ClocksWhileDisabled(r: Registers, n: nat)
    requires r.irqEnable != One
    ensures Clocks(r, n) == (r, 0)
  {
    if n > 0 {
      ClocksWhileDisabled(r, n - 1);
    }
  }

  /** Clocking `a + b` times is clocking `a` times and then `b` times. */
  lemma {:induction false} ClocksSplit(r: Registers, a: nat, b: nat)
    ensures Clocks(r, a + b).0 == Clocks(Clocks(r, a).0, b).0
    ensures Clocks(r, a + b).1 == Clocks(r, a).1 + Clocks(Clocks(r, a).0, b).1
    decreases a
  {
    if a > 0 {
      ClocksSplit(Clock(r).0, a - 1, b);
      assert a + b - 1 == (a - 1) + b;
    }
  }

  /** While enabled, `k` clocks of a counter holding at least `k` just count it down. */
  lemma {:induction false} CountDown(r: Registers, k: nat)
    requires r.irqEnable == One && k <= r.irqCounter
    ensures Clocks(r, k) == (r.(irqCounter := r.irqCounter - k), 0)
    decreases k
  {
    if k > 0 {
      CountDown(r.(irqCounter := r.irqCounter - 1), k - 1);
    }
  }

  /** After a reload to `L` (counter == latch == L), the first `L` clocks are silent and
      clock `L + 1` requests exactly one IRQ and reloads the counter from the latch. */
  lemma IrqOnClockAfterReload(r: Registers)
    requires r.irqEnable == One && r.irqCounter == r.irqLatchValue as int
    ensures Clocks(r, r.irqCounter).1 == 0
    ensures Clocks(r, r.irqCounter + 1) == (r, 1)
  {
    var L := r.irqCounter;
    CountDown(r, L);
    ClocksSplit(r, L, 1);
    assert Clocks(r, L).0 == r.(irqCounter := 0);
    assert Clock(r.(irqCounter := 0)) == (r, true);
  }

  /** With the counter enabled and reloaded to `L`, every span of `m * (L + 1)` clocks
      raises exactly `m` IRQs and ends where it started. */
  lemma {:induction false} IrqPeriod(r: Registers, m: nat)
    requires r.irqEnable == One && r.irqCounter == r.irqLatchValue as int
    ensures Clocks(r, m * (r.irqCounter + 1)) == (r, m)
    decreases m
  {
    var p := r.irqCounter + 1;
    if m > 0 {
      IrqPeriod(r, m - 1);
      IrqOnClockAfterReload(r);
      assert m * p == (m - 1) * p + p;
      ClocksSplit(r, (m - 1) * p, p);
    }
  }

  // ---------------------------------------------------------------------------
  // Bank layout

  /** The `inv` of `updateBanks`: as written, both the CHR and the PRG inversion test
      bit 0x80 of `bankSelect` (BANK_SELECT_CHR_INVERTED). */
  predicate Inverted(bankSelect: u8) {
    HasBit(bankSelect as int, 0x80)
  }

  /** The four 8 KB PRG windows `updateBanks` swaps in, keyed by offset in the 32 KB
      PRG switcher: all inside it, with the last bank always at $6000. */
  function PrgWindows(bankSelect: u8, banks: seq<u8>): (l: Layout)
    requires |banks| == 8
    ensures Within(l, 0, 0x8000)
    ensures 0x6000 in l && l[0x6000] == Load(-1, 0x2000)
  {
    var inv := Inverted(bankSelect);
    map[FlipIf(inv, 0x0000, 0x4000) := Load(banks[6] as int, 0x2000)]
      [0x2000 := Load(banks[7] as int, 0x2000)]
      [FlipIf(inv, 0x4000, 0x4000) := Load(-2, 0x2000)]
      [0x6000 := Load(-1, 0x2000)]
  }

  /** The two 2 KB and four 1 KB CHR windows `updateBanks` swaps in, all inside the 8 KB
      pattern space. The 2 KB registers hold 1 KB bank numbers, so they are shifted
      right by one. */
  function ChrWindows(bankSelect: u8, banks: seq<u8>): (l: Layout)
    requires |banks| == 8
    ensures Within(l, 0, 0x2000)
  {
    var inv := Inverted(bankSelect);
    map[FlipIf(inv, 0x0000, 0x1000) := Load(banks[0] as int / 2, 0x0800)]
      [FlipIf(inv, 0x0800, 0x1000) := Load(banks[1] as int / 2, 0x0800)]
      [FlipIf(inv, 0x1000, 0x1000) := Load(banks[2] as int, 0x0400)]
      [FlipIf(inv, 0x1400, 0x1000) := Load(banks[3] as int, 0x0400)]
      [FlipIf(inv, 0x1800, 0x1000) := Load(banks[4] as int, 0x0400)]
      [FlipIf(inv, 0x1c00, 0x1000) := Load(banks[5] as int, 0x0400)]
  }

  /** PRG layout: with bit 7 of `bankSelect` clear, banks[6] at $0000 of the switcher and
      the second-to-last bank at $4000; with it set the two trade places. banks[7] is
      always at $2000 and the last bank always at $6000. */
  lemma PrgWindowsLayout(bankSelect: u8, banks: seq<u8>)
    requires |banks| == 8
    ensures !Inverted(bankSelect) ==> (PrgWindows(bankSelect, banks) ==
      map[0x0000 := Load(banks[6] as int, 0x2000), 0x2000 := Load(banks[7] as int, 0x2000),
          0x4000 := Load(-2, 0x2000), 0x6000 := Load(-1, 0x2000)])
    ensures Inverted(bankSelect) ==> (PrgWindows(bankSelect, banks) ==
      map[0x4000 := Load(banks[6] as int, 0x2000), 0x2000 := Load(banks[7] as int, 0x2000),
          0x0000 := Load(-2, 0x2000), 0x6000 := Load(-1, 0x2000)])
    ensures Inverted(bankSelect) <==> bankSelect >= 0x80
  {
  }

  /** CHR layout: with bit 7 clear the 2 KB windows are at $0000/$0800 and the 1 KB
      windows at $1000–$1C00; with it set each window moves by $1000. */
  lemma ChrWindowsLayout(bankSelect: u8, banks: seq<u8>)
    requires |banks| == 8
    ensures !Inverted(bankSelect) ==> (ChrWindows(bankSelect, banks) ==
      map[0x0000 := Load(banks[0] as int / 2, 0x0800), 0x0800 := Load(banks[1] as int / 2, 0x0800),
          0x1000 := Load(banks[2] as int, 0x0400), 0x1400 := Load(banks[3] as int, 0x0400),
          0x1800 := Load(banks[4] as int, 0x0400), 0x1c00 := Load(banks[5] as int, 0x0400)])
    ensures Inverted(bankSelect) ==> (ChrWindows(bankSelect, banks) ==
      map[0x1000 := Load(banks[0] as int / 2, 0x0800), 0x1800 := Load(banks[1] as int / 2, 0x0800),
          0x0000 := Load(banks[2] as int, 0x0400), 0x0400 := Load(banks[3] as int, 0x0400),
          0x0800 := Load(banks[4] as int, 0x0400), 0x0c00 := Load(banks[5] as int, 0x0400)])
  {
  }

  /** The PRG windows tile the 32 KB PRG space. */
  lemma PrgWindowsTile(bankSelect: u8, banks: seq<u8>)
    requires |banks| == 8
    ensures Tiles(PrgWindows(bankSelect, banks), 0, 0x8000)
  {
    PrgWindowsLayout(bankSelect, banks);
    var l := PrgWindows(bankSelect, banks);
    forall a | 0 <= a < 0x8000
      ensures Covered(l, a)
    {
      var w := a / 0x2000 * 0x2000;
      assert w in l && w <= a < w + l[w].size;
    }
  }

  /** In a PRG ROM of whole 8 KB pages, at least two of them, the window at $6000
      holds the last page and the one `updateBanks` points at -2 the second-to-last,
      whatever the bank registers say. */
  lemma FixedBanksFromEnd(bankSelect: u8, banks: seq<u8>, romSize: nat)
    requires |banks| == 8 && romSize % 0x2000 == 0 && romSize >= 0x4000
    ensures var l, w := PrgWindows(bankSelect, banks), FlipIf(Inverted(bankSelect), 0x4000, 0x4000);
      && w in l && w != 0x6000
      && ResolvePage(l[0x6000].page, 0x2000, romSize) * 0x2000 == romSize - 0x2000
      && ResolvePage(l[w].page, 0x2000, romSize) * 0x2000 == romSize - 0x4000
  {
    PrgWindowsLayout(bankSelect, banks);
    NegativePagesFromEnd(0x2000, romSize);
  }

  /** The shape of the CHR windows: the 2 KB ones fill the half starting at `big`, the
      1 KB ones the other half, each aligned to its size. */
  lemma ChrWindowsShape(bankSelect: u8, banks: seq<u8>, big: int)
    requires |banks| == 8 && big == (if Inverted(bankSelect) then 0x1000 else 0)
    ensures var l := ChrWindows(bankSelect, banks);
      forall w :: w in l ==>
        && 0 <= w < 0x2000
        && l[w].size == (if big <= w < big + 0x1000 then 0x0800 else 0x0400)
        && w % l[w].size == 0
  {
    ChrWindowsLayout(bankSelect, banks);
  }

  /** Two distinct windows of one size, both aligned to it, do not overlap. */
  lemma AlignedDisjoint(w1: int, w2: int, size: int)
    requires size == 0x0400 || size == 0x0800
    requires w1 % size == 0 && w2 % size == 0 && w1 != w2
    ensures !Overlaps(w1, size, w2, size)
  {
    var q1, q2 := w1 / size, w2 / size;
    assert w1 == size * q1 && w2 == size * q2;
    if size == 0x0400 {
      assert q1 < q2 ==> w1 + 0x0400 <= w2;
      assert q2 < q1 ==> w2 + 0x0400 <= w1;
    } else {
      assert q1 < q2 ==> w1 + 0x0800 <= w2;
      assert q2 < q1 ==> w2 + 0x0800 <= w1;
    }
  }

  /** A window aligned to its size and starting inside a $1000-aligned half ends inside
      it too. */
  lemma AlignedInHalf(w: int, size: int, half: int)
    requires size == 0x0400 || size == 0x0800
    requires half == 0 || half == 0x1000
    requires w % size == 0 && half <= w < half + 0x1000
    ensures w + size <= half + 0x1000
  {
    var q := (w - half) / size;
    assert w - half == size * q;
  }

  /** The CHR windows tile the 8 KB pattern space. */
  lemma ChrWindowsTile(bankSelect: u8, banks: seq<u8>)
    requires |banks| == 8
    ensures Tiles(ChrWindows(bankSelect, banks), 0, 0x2000)
  {
    var l := ChrWindows(bankSelect, banks);
    var big := if Inverted(bankSelect) then 0x1000 else 0;
    ChrWindowsShape(bankSelect, banks, big);
    forall w1, w2 | w1 in l && w2 in l && w1 != w2
      ensures !Overlaps(w1, l[w1].size, w2, l[w2].size)
    {
      if l[w1].size == l[w2].size {
        AlignedDisjoint(w1, w2, l[w1].size);
      } else {
        // one window in each half
        var h1 := if w1 < 0x1000 then 0 else 0x1000;
        var h2 := if w2 < 0x1000 then 0 else 0x1000;
        AlignedInHalf(w1, l[w1].size, h1);
        AlignedInHalf(w2, l[w2].size, h2);
      }
    }
    ChrWindowsCover(bankSelect, banks);
  }

  /** Every address of the pattern space lies in a CHR window. */
  lemma ChrWindowsCover(bankSelect: u8, banks: seq<u8>)
    requires |banks| == 8
    ensures forall a :: 0 <= a < 0x2000 ==> Covered(ChrWindows(bankSelect, banks), a)
  {
    ChrWindowsLayout(bankSelect, banks);
    var l := ChrWindows(bankSelect, banks);
    var big := if Inverted(bankSelect) then 0x1000 else 0;
    // the 2 KB half
    forall a | big <= a < big + 0x1000
      ensures Covered(l, a)
    {
      var w := a / 0x0800 * 0x0800;
      assert w in l && w <= a < w + l[w].size;
    }
    // the 1 KB half
    forall a | 0 <= a < 0x2000 && !(big <= a < big + 0x1000)
      ensures Covered(l, a)
    {
      var w := a / 0x0400 * 0x0400;
      assert w in l && w <= a < w + l[w].size;
    }
  }

  /** The extension block of the savestate, field for field. */
  datatype ExtSavestate = ExtSavestate(
    bankSelect: u8,
    irqCounter: int,
    irqLatchValue: u8,
    irqEnable: EnableFlag,
    banks: seq<u8>)

  /** The MMC3 chip together with the part of the cartridge it drives: the PRG and CHR
      bank switchers, the mirroring it last selected on the PPU and the IRQs it raised. */
  class MMC3 {
    var bankSelect: u8
    var banks: array<u8>
    var irqLatchValue: u8
    var irqCounter: int
    var irqEnable: EnableFlag

    /** The PPU's `usingChrRam`: CHR RAM carts have no CHR switching. */
    const usingChrRam: bool
    /** The PRG switcher, keyed by offset from $8000, and the CHR switcher. */
    var prg: Layout
    var chr: Layout
    /** The mode last passed to the PPU's `setMirroring`, if any. */
    var mirroring: Option<Mirroring>
    /** Calls of the CPU's `requestIrq`. */
    var irqRequests: nat

    function Regs(): Registers
      reads this, banks
    {
      Registers(bankSelect, banks[..], irqLatchValue, irqCounter, irqEnable)
    }

    ghost predicate Valid()
      reads this, banks
    {
      WellFormed(Regs()) && Within(prg, 0, 0x8000) && Within(chr, 0, 0x2000)
    }

    constructor (usingChrRam: bool)
      ensures Valid() && fresh(banks)
      ensures Regs() == PowerOn()
      ensures this.usingChrRam == usingChrRam
      ensures prg == map[] && chr == map[] && mirroring == None && irqRequests == 0
    {
      bankSelect := 0;
      banks := new u8[8](_ => 0);
      irqLatchValue := 0;
      irqCounter := 0;
      irqEnable := PowerOnTrue;
      this.usingChrRam := usingChrRam;
      prg, chr := map[], map[];
      mirroring := None;
      irqRequests := 0;
      new;
      assert banks[..] == [0, 0, 0, 0, 0, 0, 0, 0];
    }

    /** Maps the last 8 KB PRG bank at $E000; the other windows stay unspecified. */
    method InitializePrgRom()
      requires Valid()
      modifies this
      ensures Valid() && banks == old(banks) && Regs() == old(Regs())
      ensures prg == Swap(old(prg), 0xe000 - 0x8000, -1, 0x2000)
      ensures prg[0x6000] == Load(-1, 0x2000)
      ensures chr == old(chr) && mirroring == old(mirroring) && irqRequests == old(irqRequests)
    {
      prg := Swap(prg, 0xe000 - 0x8000, -1, 0x2000);
    }

    /** Recomputes both switchers from `bankSelect` and `banks`. */
    method UpdateBanks()
      requires Valid()
      modifies this
      ensures Valid() && banks == old(banks) && Regs() == old(Regs())
      ensures prg == PrgWindows(bankSelect, banks[..])
      ensures chr == if usingChrRam then old(chr) else ChrWindows(bankSelect, banks[..])
      ensures mirroring == old(mirroring) && irqRequests == old(irqRequests)
    {
      if !usingChrRam {
        ChrWindowsTile(bankSelect, banks[..]);
        OverlayTiling(chr, ChrWindows(bankSelect, banks[..]), 0, 0x2000);
        chr := Overlay(chr, ChrWindows(bankSelect, banks[..]));
      }
      PrgWindowsTile(bankSelect, banks[..]);
      OverlayTiling(prg, PrgWindows(bankSelect, banks[..]), 0, 0x8000);
      prg := Overlay(prg, PrgWindows(bankSelect, banks[..]));
    }

    method Write8(addr: u16, value: u8)
      requires Valid()
      modifies this, banks
      ensures Valid() && banks == old(banks)
      ensures Regs() == Write(old(Regs()), addr, value)
      ensures Decode(addr) in {SelectBank, BankData} ==>
        && prg == PrgWindows(bankSelect, banks[..])
        && chr == (if usingChrRam then old(chr) else ChrWindows(bankSelect, banks[..]))
      ensures Decode(addr) !in {SelectBank, BankData} ==> prg == old(prg) && chr == old(chr)
      ensures mirroring == if Decode(addr) == MirroringSelect then Some(MirroringFor(value)) else old(mirroring)
      ensures irqRequests == old(irqRequests)
    {
      var a := Masked(addr);
      if a < 0xc000 {
        if a < 0xa000 {
          if a == 0x8000 {
            bankSelect := value;
            UpdateBanks();
          } else {
            banks[bankSelect as int % 8] := value;
            UpdateBanks();
          }
        } else {
          if a == 0xa000 {
            if value % 2 != 0 {
              mirroring := Some(Horizontal);
            } else {
              mirroring := Some(Vertical);
            }
          } else {
            // Save-RAM toggle: not implemented by the chip model either.
          }
        }
      } else {
        if a < 0xe000 {
          if a == 0xc000 {
            irqLatchValue := value;
            irqCounter := value as int;
          } else {
            irqCounter := irqLatchValue as int;
          }
        } else {
          if a == 0xe000 {
            irqEnable := Zero;
          } else {
            irqEnable := One;
          }
        }
      }
    }

    /** The PPU calls this once per scanline. */
    method ClockIrqCounter()
      requires Valid()
      modifies this
      ensures Valid() && banks == old(banks)
      ensures Regs() == Clock(old(Regs())).0
      ensures irqRequests == old(irqRequests) + if Clock(old(Regs())).1 then 1 else 0
      ensures prg == old(prg) && chr == old(chr) && mirroring == old(mirroring)
    {
      if irqEnable == One {
        irqCounter := irqCounter - 1;
        if irqCounter < 0 {
          irqRequests := irqRequests + 1;
          irqCounter := irqLatchValue as int;
        }
      }
    }

    method WriteExtSavestate() returns (e: ExtSavestate)
      requires Valid()
      ensures e == ExtSavestate(bankSelect, irqCounter, irqLatchValue, irqEnable, banks[..])
    {
      e := ExtSavestate(bankSelect, irqCounter, irqLatchValue, irqEnable, banks[..]);
    }

    /** Restores the registers from an extension block written by `WriteExtSavestate`. */
    method RestoreExtSavestate(e: ExtSavestate)
      requires Valid()
      requires |e.banks| == 8 && 0 <= e.irqCounter < 0x100
      modifies this
      ensures Valid() && fresh(banks)
      ensures Regs() == Registers(e.bankSelect, e.banks, e.irqLatchValue, e.irqCounter, e.irqEnable)
      ensures prg == old(prg) && chr == old(chr) && mirroring == old(mirroring) && irqRequests == old(irqRequests)
    {
      bankSelect := e.bankSelect;
      irqCounter := e.irqCounter;
      irqLatchValue := e.irqLatchValue;
      irqEnable := e.irqEnable;
      banks := new u8[8](i requires 0 <= i < 8 => e.banks[i]);
      assert banks[..] == e.banks;
    }
  }

  /** Saving one chip and restoring the block into another reproduces its registers. */
  method CopyBySavestate(source: MMC3, target: MMC3)
    requires source.Valid() && target.Valid()
    modifies target
    ensures target.Valid() && target.Regs() == old(source.Regs())
  {
    var e := source.WriteExtSavestate();
    target.RestoreExtSavestate(e);
  }
}
