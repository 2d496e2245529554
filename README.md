# jsnesx emulation core, modelled in Dafny

This project models four parts of the jsnesx NES emulator and proves properties about them.

- **The MMC3 cartridge mapper** (mapper 4):
  - a write decoded on `addr & 0xe001` into bank-select, bank-data, mirroring, IRQ-latch, IRQ-reload and IRQ-disable/enable registers;
  - the PRG/CHR window layout `updateBanks` derives from `bankSelect` and the eight bank registers;
  - the scanline-clocked IRQ down-counter;
  - the savestate extension block.
- **The MMC1 cartridge mapper** (mapper 1):
  - the reset-on-bit-7 rule and the shift-register write path, modelled as the code has them, JavaScript's 32-bit conversions included;
  - routing by address into `control`, `chrLo`, `chrHi` and `prgPage`;
  - the `update()` decision of mirroring mode, PRG loads and CHR loads;
  - the `mmc1` five-tuple of `toJSON`/`fromJSON`.
- **The frame loop of the `NES` object**:
  - CPU instructions and 8-cycle DMA-stall chunks become three PPU dots per CPU cycle;
  - each dot does the sprite-0 test, the `nmiCounter` countdown and the `curX` wrap at 341;
  - the frame ends on `startVBlank`;
  - breakpoints suspend and resume through `breakpointCycles`. The CPU's reports are a list of instructions, and each run returns the ones it left over, so a suspended frame resumes on the rest. Suspending at a breakpoint and then resuming ends as the run without that breakpoint, except for the breakpoint bookkeeping;
  - also modelled: `reset`, `loadROM`/`reloadROM` and the light-gun (zapper) guards.
- **The front end's frame buffer**: the 256 × 240 `Uint32Array` that starts opaque black, `setBuffer` and `setBufferPartial` with its red marker row.

## Modules

- `Js` (js.dfy): JavaScript's signed 32-bit conversion, used wherever the code shifts with `<<`.
- `Cartridge` (cartridge.dfy) holds what the mappers share:
  - byte and address types;
  - the mirroring modes;
  - a bank switcher as a map from window start to `Load(page, size)`. A `swap` replaces every window it overlaps, and a negative page counts from the end of the ROM.
- `Mmc3` (mmc3.dfy) has two layers:
  - pure functions on the register file (`Write`, `Clock`, `Clocks`, `PrgWindows`, `ChrWindows`) and lemmas about them;
  - the class `MMC3`, whose methods update the fields in place and are proved equal to those functions.
- `Mmc1` (mmc1.dfy) follows the same plan, with the class `MMC1`.
- `Nes` (nes.dfy) has two layers:
  - pure functions: `DotStep`/`RunDots` for the dot loop, `CpuStep` for the instruction-or-stall step, `LoopStep`/`RunFrameLoop` for `FRAMELOOP`, and `FrameOf` for `frame()`;
  - the PPU's `startFrame`, `endScanline` and `startVBlank` are function parameters (`PpuOps`) over the PPU registers and the dot counter `curX`, so each may move `curX`. The lemmas that bound `curX` assume `KeepsDotCounter`: `endScanline` leaves `curX` at the 0 the loop has just set, and `startVBlank` leaves it where it was;
  - the class `NES`, whose `Frame` method runs the loop on its fields and is proved equal to `FrameOf`.
- `ScreenBuffer` (screenbuffer.dfy): the typed-array operations `set`, `subarray` and `fill` with their index rules, and the class `Screen` over an `array<u32>`.

### How the code is read

- **MMC1 shift step.** The code does `shiftRegister <<= 1; shiftRegister &= value & 1;`.
  - The result is always 0 (`ShiftInIsZero`).
  - So the `& 0x80` early return never fires.
  - Every write with bit 7 clear therefore stores 0 into the register its address selects and runs `update()`; the five-write protocol never happens.
  - `BankRegistersStayZero` states the consequence: after a reset the bank registers `chrLo`, `chrHi` and `prgPage` stay 0.
  - So the only pages `update()` ever loads are page 0 and, in PRG mode 3, the fixed bank 0xf at $C000 (`PagesAfterWrites`). A reset write followed by any other write does reach that fixed bank (`FixedBankAfterResetWrite`).
- **MMC3 inversion bit.** Both the CHR and the PRG inversion in `updateBanks` test `BANK_SELECT_CHR_INVERTED` (0x80), and the model does the same. `BANK_SELECT_PRG_INVERTED` (0x40) is declared but unused.
- **MMC3 `irqEnable`.** The constructor stores the boolean `true`. The enable/disable writes store the numbers 0 and 1, and clocking tests `=== 1`. The model keeps the three values apart (`EnableFlag`), so nothing is clocked until $E001 is written.
- **JavaScript bit operations** are written out on integers:
  - `v & mask` for a single bit is `HasBit`;
  - `x >>> 1` is `UnsignedHalf`;
  - `x | 0b01100` is `WithPrg16kLo`: it first converts `x` to a signed 32-bit value, as `|` does, then sets bits 2 and 3. So it is exact for every value of `control`, including one restored by `fromJSON` outside the 32-bit range;
  - `x << 1` and `h << 8` go through the signed 32-bit wrap `Int32`, so a negative `height` in `setBufferPartial` counts rows back from the end of the source (`NegativeHeightCountsFromEnd`).
- **Typed-array `set` and `RangeError`.** A `set` with a source longer than the buffer throws a RangeError. The model returns it as `RangeError` (or `ok == false`), and the buffer is left unchanged.

## Model

| member | source | states |
|---|---|---|
| Js.Int32 | src/fe/screen.js:41 | the result of a 32-bit `<<` is a signed 32-bit value congruent to the exact product modulo 2^32 |
| Js.Int32InRange | src/fe/screen.js:41-42 | a value already in the signed 32-bit range is unchanged by the conversion |
| Cartridge.Overlay | src/mappers/mmc3.js:82-93 | after a series of swaps each new window holds its load, a previous window survives exactly when no new window overlaps it, and nothing else appears |
| Cartridge.Swap | src/mappers/mmc3.js:90 | one swap maps its window to the given page and size; every other remaining window is an old one that does not overlap it, and every old window that does not overlap it remains |
| Cartridge.SwapWithin | src/mappers/mmc3.js:22 | a swap of a window that lies inside the switcher's range keeps every window inside that range |
| Cartridge.OverlayTiling | src/mappers/mmc3.js:77-95 | loading a set of windows that tiles a range erases every earlier window of that range: the switcher then shows exactly the new windows |
| Cartridge.NegativePagesFromEnd | src/mappers/mmc3.js:92-93 | pages -1 and -2 resolve to the last and the second-to-last page of the ROM, in that order |
| Mmc3.FixedBanksFromEnd | src/mappers/mmc3.js:90-93 | whatever the bank registers hold, the window at $6000 reads the last 8 KB page of the PRG ROM and the window given page -2 (at $4000, or $0000 when inverted) the second-to-last |
| Mmc3.DecodeByRegion | src/mappers/mmc3.js:27-74 | after masking with 0xe001 the register reached depends only on the 8 KB region and bit 0 of the address (even/odd pairs $8000/$8001 … $E000/$E001); every masked address below $A000 other than $8000 reaches bank data |
| Mmc3.PowerOn | src/mappers/mmc3.js:13-18 | the power-on register file has eight bank slots and a byte counter |
| Mmc3.Write | src/mappers/mmc3.js:26-75 | a write keeps eight bank slots; `bankSelect` changes only through $8000, the bank slots only through bank data, the latch only through $C000, the counter only through $C000/$C001, `irqEnable` only through $E000/$E001 |
| Mmc3.WriteValid | src/mappers/mmc3.js:26-75 | every write keeps eight bank slots and the counter a byte |
| Mmc3.WriteBankSelect | src/mappers/mmc3.js:31-34 | a write to $8000 (after masking) changes only `bankSelect` |
| Mmc3.WriteBankData | src/mappers/mmc3.js:35-38 | a $8001 write sets slot `bankSelect & 7` to the value; the other seven slots, `bankSelect` and the IRQ registers are unchanged |
| Mmc3.WriteMirroringKeepsRegisters | src/mappers/mmc3.js:41-52 | $A000 and $A001 change no register of the chip |
| Mmc3.WriteIrqLatchAndReload | src/mappers/mmc3.js:56-63 | $C000 sets both latch and counter to the value; $C001 copies the latch into the counter and keeps the latch |
| Mmc3.WriteIrqControl | src/mappers/mmc3.js:65-72 | $E000 stores 0 and $E001 stores 1 in `irqEnable`, and nothing else changes |
| Mmc3.Clock | src/mappers/mmc3.js:97-109 | a clock changes only the counter; it requests an IRQ iff the counter is enabled (the number 1) and at most 0, and then reloads the counter from the latch |
| Mmc3.Clocks | src/mappers/mmc3.js:97-109 | n clocks change only the counter and request at most n IRQs |
| Mmc3.ClockValid | src/mappers/mmc3.js:97-109 | between clocks the counter stays a byte |
| Mmc3.ClocksWhileDisabled | src/mappers/mmc3.js:97-109 | while `irqEnable` is not the number 1 (including the power-on `true`) any number of clocks changes nothing and requests no IRQ |
| Mmc3.ClocksSplit | src/mappers/mmc3.js:97-109 | clocking a + b times equals clocking a then b times, and the IRQ counts add up |
| Mmc3.CountDown | src/mappers/mmc3.js:99-100 | while enabled, k clocks of a counter of at least k decrement it by k and request nothing |
| Mmc3.IrqOnClockAfterReload | src/mappers/mmc3.js:97-109 | after a reload to L the first L clocks are silent and clock L + 1 raises exactly one IRQ and restores the counter from the latch |
| Mmc3.IrqPeriod | src/mappers/mmc3.js:97-109 | with the counter reloaded to L, every m·(L+1) clocks raise exactly m IRQs and return to the same state |
| Mmc3.PrgWindows | src/mappers/mmc3.js:90-93 | every PRG window lies inside the 32 KB switcher, and the last bank is at $6000 whatever `bankSelect` holds |
| Mmc3.ChrWindows | src/mappers/mmc3.js:82-87 | every CHR window lies inside the 8 KB pattern space |
| Mmc3.PrgWindowsLayout | src/mappers/mmc3.js:78-94 | PRG windows: banks[6] at $0000 and bank -2 at $4000, traded when bit 0x80 of `bankSelect` is set; banks[7] at $2000 and bank -1 at $6000 always; inversion holds iff `bankSelect >= 0x80` |
| Mmc3.ChrWindowsLayout | src/mappers/mmc3.js:78-89 | CHR windows: `banks[0]>>>1`, `banks[1]>>>1` in 2 KB windows at $0000/$0800 and banks[2..5] in 1 KB windows at $1000–$1C00, every window moved by $1000 when bit 7 is set |
| Mmc3.PrgWindowsTile | src/mappers/mmc3.js:90-93 | the four PRG windows cover the 32 KB PRG space without overlap |
| Mmc3.ChrWindowsShape | src/mappers/mmc3.js:82-87 | the 2 KB CHR windows lie in the half chosen by bit 7 of `bankSelect`, the 1 KB windows in the other half, each aligned to its size |
| Mmc3.ChrWindowsCover | src/mappers/mmc3.js:82-87 | every address of the 8 KB pattern space lies in some CHR window |
| Mmc3.ChrWindowsTile | src/mappers/mmc3.js:82-87 | the six CHR windows cover the 8 KB pattern space without overlap |
| Mmc3.MMC3.constructor | src/mappers/mmc3.js:10-19 | a new chip holds the power-on registers: zero selector, eight zero banks, zero latch and counter, `irqEnable` true |
| Mmc3.MMC3.InitializePrgRom | src/mappers/mmc3.js:21-24 | the last 8 KB PRG bank is mapped at $E000; registers, CHR and mirroring are untouched |
| Mmc3.MMC3.UpdateBanks | src/mappers/mmc3.js:77-95 | the PRG switcher ends up exactly the PRG layout, the CHR switcher exactly the CHR layout unless the cart uses CHR RAM (then untouched), registers unchanged |
| Mmc3.MMC3.Write8 | src/mappers/mmc3.js:26-75 | the registers become the functional `Write`; bank-select and bank-data writes re-derive both layouts; $A000 selects horizontal iff bit 0 of the value, else vertical; no other write touches layouts or mirroring |
| Mmc3.MMC3.ClockIrqCounter | src/mappers/mmc3.js:97-109 | the registers follow `Clock`, the IRQ request count grows by one exactly when `Clock` reports an underflow, and nothing else moves |
| Mmc3.MMC3.WriteExtSavestate | src/mappers/mmc3.js:111-119 | the block holds `bankSelect`, `irqCounter`, `irqLatchValue`, `irqEnable` and the banks as they are |
| Mmc3.MMC3.RestoreExtSavestate | src/mappers/mmc3.js:121-128 | the five registers become exactly those of the block; layouts and mirroring are untouched |
| Mmc3.CopyBySavestate | src/mappers/mmc3.js:111-128 | saving one chip and restoring the block into another reproduces the saved registers exactly |
| Js.Int32LowBits | src/mappers/mmc1.js:60 | the signed 32-bit conversion keeps the low five bits, the ones MMC1 tests |
| Mmc1.WithPrg16kLo | src/mappers/mmc1.js:60 | `control \| CTRL_PRG_16K_LO` is a signed 32-bit value |
| Mmc1.ShiftInIsZero | src/mappers/mmc1.js:64-65 | the shift step `(s << 1) & (value & 1)` is 0 for every register and every value |
| Mmc1.Prg16kLoBits | src/mappers/mmc1.js:60 | `control \| CTRL_PRG_16K_LO` sets both PRG mode bits and keeps the two mirroring bits and the CHR mode bit |
| Mmc1.Write | src/mappers/mmc1.js:54-83 | a write resets the shift register iff bit 7 of the value is set; the early return of a shifting write never happens |
| Mmc1.ResetWrite | src/mappers/mmc1.js:57-63 | a write with bit 7 set resets the shift register to 0xf8 and sets both PRG mode bits of `control`, keeping its mirroring and CHR bits and the three bank registers |
| Mmc1.ClearWriteCommitsZero | src/mappers/mmc1.js:64-82 | a write with bit 7 clear commits 0 into exactly one register, chosen by address (below $A000 `control`, below $C000 `chrLo`, below $E000 `chrHi`, else `prgPage`), and then runs `update()` |
| Mmc1.BankRegistersStayZero | src/mappers/mmc1.js:54-83 | from zero bank registers no sequence of writes makes `chrLo`, `chrHi` or `prgPage` non-zero |
| Mmc1.PagesAfterWrites | src/mappers/mmc1.js:54-105 | from zero bank registers, after any writes `update()` loads only PRG pages 0 and 0xf and only CHR page 0 |
| Mmc1.FixedBankAfterResetWrite | src/mappers/mmc1.js:57-91 | from zero bank registers a reset write to $8000 followed by a write to $A000 leads `update()` to load page 0 at $8000 and the fixed bank 0xf at $C000 |
| Mmc1.UpdateOf | src/mappers/mmc1.js:85-105 | `update()` never selects four-screen mirroring, and its PRG and CHR loads tile $8000-$FFFF and $0000-$1FFF in every mode |
| Mmc1.MirroringTable | src/mappers/mmc1.js:32-37 | `control & 3` values 0, 1, 2, 3 select single-screen lower, single-screen upper, vertical, horizontal; four-screen is never chosen |
| Mmc1.PrgModes | src/mappers/mmc1.js:88-98 | PRG mode bits 0/1 give the 32 KB page `prgPage >>> 1` at $8000; mode 3 gives `prgPage` at $8000 and bank 0xf at $C000; mode 2 gives bank 0 at $8000 and `prgPage` at $C000 |
| Mmc1.PrgLoadsTile | src/mappers/mmc1.js:88-98 | in every mode the PRG loads cover $8000–$FFFF without overlap |
| Mmc1.ChrModes | src/mappers/mmc1.js:99-104 | with bit 0x10 set `chrLo` and `chrHi` go in 4 KB windows at $0000/$1000, otherwise `chrLo >>> 1` in one 8 KB window; either way the pattern space is covered |
| Mmc1.Snapshot | src/mappers/mmc1.js:120-130 | the `mmc1` array has exactly five entries |
| Mmc1.JsonRoundTrip | src/mappers/mmc1.js:120-137 | restoring the five-tuple of `toJSON` gives back all five registers |
| Mmc1.MMC1.Update | src/mappers/mmc1.js:85-105 | mirroring, PRG switcher and CHR switcher become exactly the decision of the registers, which are unchanged |
| Mmc1.MMC1.Reset | src/mappers/mmc1.js:40-48 | shift register 0xf8, the power-on `control`, zero bank registers, then the switchers settled on that state |
| Mmc1.MMC1.InitializePrgRom | src/mappers/mmc1.js:50-52 | the switchers are settled on the current registers, which are unchanged |
| Mmc1.MMC1.Write8 | src/mappers/mmc1.js:54-83 | the registers follow the functional `Write`; a reset write maps the 32 KB page `prgPage >>> 1` at $8000 without touching CHR or mirroring; a committing write settles the switchers |
| Mmc1.MMC1.Commit | src/mappers/mmc1.js:69-82 | the shift register's value goes into exactly the register the address selects, and the switchers are then settled on the new registers |
| Mmc1.MMC1.ToJson | src/mappers/mmc1.js:120-130 | the five registers in the order shift register, control, chrLo, chrHi, prgPage |
| Mmc1.MMC1.FromJson | src/mappers/mmc1.js:132-137 | the registers are taken from the first five entries in that order and the switchers are settled on them |
| Nes.DotStep | src/nes.js:125-148 | a dot ends the frame only while an end-of-frame request is pending, then with one `startVBlank` and no `endScanline`; otherwise it calls `endScanline` exactly when `curX` reaches 341 |
| Nes.RunDots | src/nes.js:124-149 | the dot loop either ends the frame on a dot still counted in `cycles`, or runs all dots and leaves `cycles` at 0 (or at its non-positive start value) |
| Nes.DotsAccounting | src/nes.js:124-149 | the dot loop calls `startVBlank` once exactly when it ends the frame, otherwise runs every dot; when the PPU operations keep the dot counter, `curX` stays in [0, 340], and `curX` plus 341 per `endScanline` call advances by the dots run |
| Nes.CpuStep | src/nes.js:101-122 | a step consumes one instruction, or shrinks a pending stall without consuming one, and `cyclesToHalt` stays non-negative |
| Nes.CpuStepEffect | src/nes.js:101-122 | an instruction gives its cycles to the APU (with sound) and three dots per cycle to the PPU, adding its DMA stall and breakpoint; a stall consumes 8 cycles (24 dots) while more than 8 remain, else all that remain; nothing else on the CPU side changes |
| Nes.LoopStep | src/nes.js:95-149 | one `FRAMELOOP` iteration keeps `cyclesToHalt` non-negative and, when it goes round again, consumes an instruction or shortens the stall |
| Nes.LoopStepCounts | src/nes.js:95-149 | one iteration calls `onBreak` once when it suspends and `startVBlank` once when it breaks out at frame end; frame counters stay; `breakpointCycles` changes only on suspension, to the current `cycles`; `curX` stays in [0, 340] when the PPU operations keep it |
| Nes.RunFrameLoop | src/nes.js:94-152 | the loop keeps `cyclesToHalt` non-negative; a suspension leaves the break flag cleared and a cycle value stored, and otherwise `breakpointCycles` stays; the instructions it leaves unreported are a suffix of its input |
| Nes.FrameLoopCounts | src/nes.js:94-152 | a completed frame adds exactly one to `frameCount`, `fpsFrameCount` and the `startVBlank` calls; a suspension calls `onBreak` once, clears the break flag and stores the cycles to resume with; otherwise these stay; `curX` stays in [0, 340] when the PPU operations keep it |
| Nes.FrameOf | src/nes.js:82-153 | `frame()` keeps `cyclesToHalt` non-negative, leaves a cycle value stored in `breakpointCycles` exactly when it was suspended, and leaves a suffix of the instructions unreported |
| Nes.ResumedCyclesIgnored | src/nes.js:95-107 | with no break pending, the cycle value the loop starts with makes no difference to the result |
| Nes.FrameEntry | src/nes.js:83-89 | a stored `breakpointCycles` is consumed and cleared and `startFrame` is skipped; without one `startFrame` runs, on the PPU registers and `curX` |
| Nes.PendingBreakOnEntry | src/nes.js:83-100 | a break pending when `frame()` is entered suspends at once: flag cleared, cycles stored, `onBreak` called, frame counters unchanged, no instruction consumed |
| Nes.LoopCongruent | src/nes.js:95-149 | `breaks` and `breakpointCycles`, and the cycle value the loop starts with, never steer the loop: two runs from states that differ only in them agree on everything else, on the outcome and on the instructions left over |
| Nes.LoopBreakResume | src/nes.js:95-107 | when instruction k is the first whose breakpoint fires, a loop run that suspends there, followed by `frame()` on the instructions left over, agrees with the run without that breakpoint on every field except `debugBreak`, `breaks` and `breakpointCycles`, on the outcome and on the instructions consumed; a run that completes the frame first already agrees |
| Nes.BreakResumeExact | src/nes.js:82-107 | the same for whole calls of `frame()` entered without a pending break: suspend, then resume with `frame()` on the rest, ends as the frame without that breakpoint, except for the breakpoint bookkeeping |
| Nes.SuspendAtBreak | src/nes.js:95-107 | when the iteration reporting the breakpoint does not end the frame, the next one suspends with no instruction consumed, and resuming goes on as the run without the breakpoint |
| Nes.EndAtBreak | src/nes.js:95-149 | when the iteration reporting the breakpoint ends the frame, both runs complete alike, the break left pending in one of them |
| Nes.DotSprite0 | src/nes.js:125-148 | on every dot the sprite-0 flag is raised iff `curX == spr0HitX`, visibility is 1 and `scanline - 21 == spr0HitY`, tested before `curX` advances; the dot ends the frame iff a request is pending with `nmiCounter` 1, and then `startVBlank` sees the flag; otherwise `endScanline` sees it at `curX` 341, or `curX` advances by one |
| Nes.NmiCountdown | src/nes.js:134-141 | while `requestEndFrame` is set `nmiCounter` drops by one per dot, and the frame ends on dot `nmiCounter` with one `startVBlank` |
| Nes.DotsWithoutEndRequest | src/nes.js:124-149 | with no end-of-frame request the dot loop runs all its dots and ends none |
| Nes.StallAccounting | src/nes.js:108-122 | a DMA stall of h cycles is consumed fully without executing an instruction: h cycles to the APU (with sound), 3·h dots to the PPU (when the PPU operations keep the dot counter), `cyclesToHalt` ends at 0 |
| Nes.NES.Dot | src/nes.js:125-148 | one dot of the object's PPU fields is `DotStep`, and `ended` reports the frame end |
| Nes.NES.Dots | src/nes.js:124-149 | the object's dot loop is `RunDots`, with the remaining `cycles` and the frame-end flag |
| Nes.NES.Cpu | src/nes.js:101-122 | the object's instruction-or-stall step is `CpuStep` on its fields and the instructions from `pc` |
| Nes.NES.Iterate | src/nes.js:95-149 | one loop iteration on the fields either continues (making progress) or leaves the loop, in agreement with `RunFrameLoop` |
| Nes.NES.FrameLoop | src/nes.js:94-152 | the object's `FRAMELOOP` plus the counter updates computes exactly `RunFrameLoop` on its state, and `used` counts the instructions it consumed |
| Nes.NES.CountFrame | src/nes.js:150-151 | after a completed frame, `fpsFrameCount` and `frameCount` each go up by one and nothing else changes |
| Nes.NES.Frame | src/nes.js:82-153 | `frame()` on the object's fields computes exactly `FrameOf`, with `used` the instructions consumed, so every property proved of `FrameOf` (including break-and-resume) holds of it |
| Nes.NES.Reset | src/nes.js:70-80 | resets the mapper if there is one and zeroes `frameCount`, `fpsFrameCount` and the FPS timestamp; a suspended frame's `breakpointCycles`, the break flag and the `onBreak` count survive |
| Nes.NES.LoadRom | src/nes.js:198-209 | resets (the old mapper included), installs the new mapper and keeps the ROM data; `breakpointCycles`, the break flag and the `onBreak` count survive |
| Nes.NES.ReloadRom | src/nes.js:190-194 | does nothing without held ROM data; otherwise reloads that same data; `breakpointCycles`, the break flag and the `onBreak` count survive either way |
| Nes.NES.ZapperMove | src/nes.js:163-167 | without a mapper nothing changes; otherwise only the zapper coordinates are set |
| Nes.NES.ZapperFireDown | src/nes.js:169-172 | without a mapper nothing changes; otherwise only the fired flag is set |
| Nes.NES.ZapperFireUp | src/nes.js:174-177 | without a mapper nothing changes; otherwise only the fired flag is cleared |
| ScreenBuffer.RelativeIndex | src/fe/screen.js:41-42 | a typed-array index argument resolves to a position no later than the length, and an in-range index is itself |
| ScreenBuffer.Subarray | src/fe/screen.js:41 | `subarray` of an in-range pair is the slice between them; an end past the length is clamped |
| ScreenBuffer.TypedArraySet | src/fe/screen.js:29 | `set` succeeds iff the source fits; then the first entries are the source's, in order, and the rest are kept |
| ScreenBuffer.Fill | src/fe/screen.js:42 | `fill` sets exactly the entries between the resolved indices and keeps all others |
| ScreenBuffer.RowStartExact | src/fe/screen.js:41-42 | `height << 8` equals `height * 256` for every height a screen can have |
| ScreenBuffer.PartialFrame | src/fe/screen.js:40-43 | the partial copy throws iff the copied part of the source is longer than the buffer; otherwise the buffer keeps its size and every pixel is a source pixel, the red marker or its old value |
| ScreenBuffer.PartialLayout | src/fe/screen.js:40-43 | for 0 ≤ h ≤ 240 and a source with at least h rows: the first h·256 pixels are the source's, row h is the red marker, every pixel from row h + 1 on is unchanged |
| ScreenBuffer.PartialRangeError | src/fe/screen.js:41 | the partial copy throws iff both the requested rows and the source are longer than the buffer |
| ScreenBuffer.NegativeHeightCountsFromEnd | src/fe/screen.js:41-42 | height -1 copies a full source except its last row and draws no marker, because the shift is signed and `subarray` counts back from the end |
| ScreenBuffer.Screen.constructor | src/fe/screen.js:15-23 | all 256 × 240 entries of the new buffer are opaque black 0xff000000 |
| ScreenBuffer.Screen.SetBuffer | src/fe/screen.js:28-29 | the buffer becomes the result of `set` with the source, or is unchanged when `set` throws |
| ScreenBuffer.Screen.SetBufferPartial | src/fe/screen.js:40-43 | the buffer becomes the partial-copy result (prefix, marker row, untouched rest), or is unchanged when `set` throws |

## Left out

- CPU, PPU and APU internals are abstract; `cpu.js`, `ppu.js` and `papu.js` are not part of this model.
  - `cpu.emulate()` is a given sequence of `Instruction`s (cycles, DMA stall, breakpoint hit), and `frame()` may run out of them (`OutOfInstructions`, an outcome the emulator itself does not have).
  - `ppu.startFrame`, `endScanline` and `startVBlank` are function parameters over the PPU registers the loop reads and the dot counter `curX`.
  - `papu.clockFrameCounter` is a running total of the cycles passed to it.
  - `setStatusFlag` is the `sprite0Hit` field.
  - `setMirroring` is the `mirroring` field of each mapper.
  - `requestIrq` is the `irqRequests` counter.
  - `triggerRendering` is not modelled.
- `debug.logScanline` in the dot loop: logging only.
- Nes.DotsAccounting: the bound 0 ≤ `curX` ≤ 340, and the count of 341 dots per scanline, hold only under `KeepsDotCounter`. That condition says how `ppu.js` treats `curX`, and `ppu.js` is not part of this model. A `startFrame` that resets the counter, or skips a dot on odd frames, is allowed: `startFrame` is unconstrained.
- Nes.NES.Frame: the same holds of the object's `curX`, so `NES.Valid` bounds only `cyclesToHalt`.
- Nes.NES.Reset: what `cpu.reset`, `ppu.reset` and `papu.reset` do is not modelled. The mapper's `reset()` is recorded as a call count, not as its effect.
- Nes.NES.LoadRom: ROM header parsing, `createMapper`, battery RAM loading, `mmap.loadROM()` and the initial `setMirroring` are foreign. The mapper the ROM asks for is a parameter.
- Nes.NES.ReloadRom: the mapper the reloaded ROM creates is a parameter, as in `LoadRom`.
- `buttonDown`/`buttonUp` forward to controller objects outside this model. `setFramerate` only stores options.
- `NES.toJSON`/`fromJSON` forward to the CPU, PPU and mapper serializers.
- `getFPS` reads the wall clock and divides in floating point; only the `lastFpsTime` reset in `reset()` is modelled.
- The NROM base class and its bank switchers (`nrom.js`) are not part of this model.
  - A switcher is a map from window start to page and size, where a swap replaces the windows it overlaps.
  - The MMC3 layout is keyed by offset in the 32 KB PRG switcher, so `loadPrgPage(0xe000, …)` is taken to be a swap at offset $6000.
  - The buffers handed to the CPU (`prgRom`) and PPU (`patternTable`) are not modelled.
- ResolvePage: a page beyond the end of the ROM, or more negative than its page count, is not checked, because the switcher code that would reject it is not part of this model.
- Mmc3: the $A001 save-RAM toggle is a no-op, as in the code.
- Mmc3.CopyBySavestate: the `Proto` message declares `irqEnable` a uint32 field (src/mappers/mmc3.js:135), and the constructor stores the boolean `true` in it (line 18). `proto.js` is not part of this model, so how it encodes that boolean is unknown. The model assumes the flag survives as recorded. If `true` came back as the number 1, clocking would be enabled after a restore, and the round trip would not hold for a chip never written at $E000/$E001.
- Mmc3.MMC3.RestoreExtSavestate: the `Proto` message encoding is foreign and is modelled as a record copy. The method requires eight banks and a byte counter, which is what `WriteExtSavestate` produces.
- The `MMC1` constructor is not modelled. It uses two constants the file never declares and reads `this.nes` before it is set.
- Mmc1.MMC1.Reset: as written, `reset()` stores 0xf8 in `shiftRegister` (src/mappers/mmc1.js:42) and then throws a `ReferenceError` on line 43, because `CTRL_PRG_SWITCH_LO` and `CTRL_CHR_8K` are never declared. So `control` is not set, the bank registers are not zeroed, and `update()` never runs. The modelled `Reset` is the evidently intended completion of lines 43-47, with the power-on `control` value, which those undeclared constants would have given, as a parameter.
- The MMC1 `switchLowHighPrgRom`, `switch16to32` and `switch32to16` are empty stubs.
- Mmc1.MMC1.FromJson: requires at least five entries in the array; a shorter array would leave JavaScript `undefined` values, which the model does not represent.
- The canvas side of `Screen` is rendering and DOM work: `writeBuffer`, `fitInParent` (floating point), `screenshot`, `getContext`/`fillRect`, and the 8-bit view `buf8` of the same memory.
- `fs.js`, `main.js` and `keyboardcontroller.js` are browser I/O and UI wiring with no emulation logic.
