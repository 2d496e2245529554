/** The system orchestrator of `src/nes.js`: the frame loop that interleaves CPU
    instructions (and DMA stalls) with PPU dots at three dots per CPU cycle, its
    break/resume handshake, and the reset / reload / light-gun entry points.

    The CPU, PPU and APU are abstract. `cpu.emulate()` is a sequence of reported
    instructions; the PPU's `startFrame`, `endScanline` and `startVBlank` are functions
    over the PPU registers the loop reads and the dot counter `curX`, which they may
    move; `papu.clockFrameCounter` is a running total. */
module Nes {
  import opened Cartridge

  /** The PPU registers the loop reads or writes, apart from the dot counter `curX`. */
  datatype Ppu = Ppu(
    scanline: int,
    spr0HitX: int,
    spr0HitY: int,
    spVisibility: int,
    requestEndFrame: bool,
    nmiCounter: int,
    sprite0Hit: bool)    // the STATUS_SPRITE0HIT status flag

  /** What the PPU's own operations do to those registers and to the dot counter. */
  datatype PpuOps = PpuOps(startFrame: (Ppu, int) -> (Ppu, int), endScanline: (Ppu, int) -> (Ppu, int), startVBlank: (Ppu, int) -> (Ppu, int))

  /** The PPU operations leave the dot counter where the loop put it: `endScanline`
      at 0, where the loop has just set it, and `startVBlank` on the dot that ended
      the frame. The loop's own bound on the dot counter rests on this. */
  ghost predicate KeepsDotCounter(ops: PpuOps) {
    && (forall p: Ppu :: ops.endScanline(p, 0).1 == 0)
    && (forall p: Ppu, x: int :: ops.startVBlank(p, x).1 == x)
  }

  /** One `cpu.emulate()`: the CPU cycles it reports, the DMA stall it starts (added to
      `cyclesToHalt`) and whether it hits a breakpoint (setting `debug.break`). */
  datatype Instruction = Instruction(cycles: nat, dmaStall: nat, hitsBreakpoint: bool)

  /** The CPU-side state `frame()` reads or writes, with counters for the calls it makes. */
  datatype LoopState = LoopState(
    breakpointCycles: Option<int>,
    debugBreak: bool,      // debug.break
    breaks: nat,           // calls of opts.onBreak
    frameCount: nat,
    fpsFrameCount: nat,
    cyclesToHalt: int,     // cpu.cyclesToHalt
    apuCycles: nat)        // CPU cycles passed to papu.clockFrameCounter

  /** The PPU side: the dot counter, the registers, and counters for the PPU calls. */
  datatype BeamState = BeamState(
    curX: int,
    ppu: Ppu,
    scanlinesEnded: nat,   // calls of ppu.endScanline
    vblanks: nat)          // calls of ppu.startVBlank

  datatype Machine = Machine(loop: LoopState, beam: BeamState)

  /** How a call of `frame()` ends. `OutOfInstructions` belongs to the model only: the
      given instructions ran out before the frame ended or was suspended. */
  datatype Outcome = Completed | Suspended | OutOfInstructions

  /** The sprite-0 hit test of one dot, made on the dot counter before it advances. */
  predicate Sprite0Hits(curX: int, p: Ppu) {
    curX == p.spr0HitX && p.spVisibility == 1 && p.scanline - 21 == p.spr0HitY
  }

  datatype Dot = Advanced(b: BeamState) | FrameEnded(b: BeamState)

  /** One iteration of the dot loop: sprite-0 test, NMI countdown, dot advance. A dot
      ends the frame only while an end-of-frame request is pending, and then calls
      `startVBlank` once; otherwise it calls `endScanline` exactly when the dot counter
      reaches 341. */
  function DotStep(b: BeamState, ops: PpuOps): (r: Dot)
    ensures r.FrameEnded? ==> b.ppu.requestEndFrame && r.b.vblanks == b.vblanks + 1 && r.b.scanlinesEnded == b.scanlinesEnded
    ensures r.Advanced? ==>
      && r.b.vblanks == b.vblanks
      && r.b.scanlinesEnded == b.scanlinesEnded + (if b.curX + 1 == 341 then 1 else 0)
  {
    var p1 := if Sprite0Hits(b.curX, b.ppu) then b.ppu.(sprite0Hit := true) else b.ppu;
    var p2 := if p1.requestEndFrame then p1.(nmiCounter := p1.nmiCounter - 1) else p1;
    if p2.requestEndFrame && p2.nmiCounter == 0 then
      var (p3, x3) := ops.startVBlank(p2.(requestEndFrame := false), b.curX);
      FrameEnded(b.(curX := x3, ppu := p3, vblanks := b.vblanks + 1))
    else if b.curX + 1 == 341 then
      var (p3, x3) := ops.endScanline(p2, 0);
      Advanced(b.(curX := x3, ppu := p3, scanlinesEnded := b.scanlinesEnded + 1))
    else
      Advanced(b.(curX := b.curX + 1, ppu := p2))
  }

  /** The dot loop `for (; cycles > 0; cycles--)`: the PPU side afterwards, the value
      left in `cycles`, and whether it left the frame loop at the end of the frame:
      either the frame ended on a dot still counted in `cycles`, or every dot ran and
      `cycles` is down to 0 (or was never positive). */
  function RunDots(b: BeamState, cycles: int, ops: PpuOps): (r: (BeamState, int, bool))
    ensures r.2 ==> 0 < r.1 <= cycles
    ensures !r.2 ==> r.1 == (if cycles > 0 then 0 else cycles)
    decreases cycles
  {
    if cycles <= 0 then (b, cycles, false)
    else
      match DotStep(b, ops)
      case FrameEnded(b') => (b', cycles, true)
      case Advanced(b') => RunDots(b', cycles - 1, ops)
  }

  /** What the dot loop does to the counters: one `startVBlank` exactly when it ends
      the frame, with the dot that ended it still counted in `cycles`; otherwise it
      runs every dot. When the PPU operations keep the dot counter, it stays on a
      scanline, and every dot run either advances it or completes a scanline (341 dots
      each). */
  lemma {:induction false} DotsAccounting(b: BeamState, cycles: int, ops: PpuOps)
    ensures var r := RunDots(b, cycles, ops);
      && r.0.vblanks == b.vblanks + (if r.2 then 1 else 0)
      && r.0.scanlinesEnded >= b.scanlinesEnded
      && (r.2 ==> 0 < r.1 <= cycles)
      && (!r.2 ==> r.1 == (if cycles > 0 then 0 else cycles))
      && (0 <= b.curX <= 340 && KeepsDotCounter(ops) ==>
          && 0 <= r.0.curX <= 340
          && r.0.curX + 341 * (r.0.scanlinesEnded - b.scanlinesEnded) == b.curX + (if cycles > 0 then cycles - r.1 else 0))
    decreases cycles
  {
    if cycles > 0 && DotStep(b, ops).Advanced? {
      DotsAccounting(DotStep(b, ops).b, cycles - 1, ops);
    }
  }

  /** The two counters bumped once the loop is left at the end of a frame. */
  function Finish(s: LoopState): LoopState {
    s.(fpsFrameCount := s.fpsFrameCount + 1, frameCount := s.frameCount + 1)
  }

  /** The CPU cycles one stall iteration consumes. */
  function StallChunk(cyclesToHalt: int): int {
    if cyclesToHalt > 8 then 8 else cyclesToHalt
  }

  /** The first half of a frame-loop iteration: one instruction when no DMA stall is
      pending, otherwise one stall chunk of at most 8 cycles. It yields the CPU side,
      the dots to run (three per CPU cycle) and the instructions left. */
  function CpuStep(s: LoopState, code: seq<Instruction>, sound: bool): (r: (LoopState, int, seq<Instruction>))
    requires s.cyclesToHalt >= 0 && (s.cyclesToHalt > 0 || |code| > 0)
    ensures r.0.cyclesToHalt >= 0
    ensures s.cyclesToHalt == 0 ==> r.2 == code[1..]
    ensures s.cyclesToHalt > 0 ==> r.2 == code && r.0.cyclesToHalt < s.cyclesToHalt
  {
    if s.cyclesToHalt == 0 then
      var i := code[0];
      (s.(cyclesToHalt := s.cyclesToHalt + i.dmaStall,
          debugBreak := s.debugBreak || i.hitsBreakpoint,
          apuCycles := if sound then s.apuCycles + i.cycles else s.apuCycles),
       i.cycles * 3, code[1..])
    else
      var n := StallChunk(s.cyclesToHalt);
      (s.(apuCycles := if sound then s.apuCycles + n else s.apuCycles,
          cyclesToHalt := s.cyclesToHalt - n),
       n * 3, code)
  }

  /** An instruction hands its cycles to the APU (when sound is emulated) and three
      times as many dots to the PPU, and its DMA stall and breakpoint take effect; a
      stall is consumed in chunks of 8 CPU cycles, the last one taking what is left,
      also at three dots per cycle. Nothing else on the CPU side changes. */
  lemma CpuStepEffect(s: LoopState, code: seq<Instruction>, sound: bool)
    requires s.cyclesToHalt >= 0 && (s.cyclesToHalt > 0 || |code| > 0)
    ensures var r := CpuStep(s, code, sound);
      && r.1 >= 0
      && r.0.(cyclesToHalt := s.cyclesToHalt, debugBreak := s.debugBreak, apuCycles := s.apuCycles) == s
      && (s.cyclesToHalt == 0 ==>
          && r.1 == 3 * code[0].cycles
          && r.0.cyclesToHalt == code[0].dmaStall
          && r.0.debugBreak == (s.debugBreak || code[0].hitsBreakpoint)
          && r.0.apuCycles == s.apuCycles + (if sound then code[0].cycles else 0))
      && (s.cyclesToHalt > 0 ==>
          && r.0.debugBreak == s.debugBreak
          && 0 < s.cyclesToHalt - r.0.cyclesToHalt <= 8
          && (r.0.cyclesToHalt > 0 ==> s.cyclesToHalt - r.0.cyclesToHalt == 8)
          && r.1 == 3 * (s.cyclesToHalt - r.0.cyclesToHalt)
          && r.0.apuCycles == s.apuCycles + (if sound then s.cyclesToHalt - r.0.cyclesToHalt else 0))
  {
  }

  /** How one iteration of `FRAMELOOP` ends: it goes round again, leaves the loop
      with `break FRAMELOOP` at the end of the frame, or returns from `frame()`. */
  datatype Step = Continue(m: Machine, cycles: int, code: seq<Instruction>) | Break(m: Machine, code: seq<Instruction>) | Leave(m: Machine, outcome: Outcome)

  /** `rest` is what is left of `code` once a prefix has been taken off it. */
  predicate Suffix(rest: seq<Instruction>, code: seq<Instruction>) {
    |rest| <= |code| && rest == code[|code| - |rest|..]
  }

  lemma SuffixOfRest(a: seq<Instruction>, rest: seq<Instruction>, code: seq<Instruction>)
    requires Suffix(a, rest) && (rest == code || (|code| > 0 && rest == code[1..]))
    ensures Suffix(a, code)
  {
  }

  /** Where a call of the loop stops: the machine state, how `frame()` ends, and the
      instructions the CPU has not yet reported (a suspended frame resumes on them). */
  datatype Run = Run(m: Machine, outcome: Outcome, rest: seq<Instruction>)

  /** One iteration of `FRAMELOOP`, entered with `cycles` in the loop variable and
      `code` the instructions the CPU has yet to report. */
  function LoopStep(m: Machine, cycles: int, code: seq<Instruction>, ops: PpuOps, sound: bool): (r: Step)
    requires m.loop.cyclesToHalt >= 0
    ensures r.m.loop.cyclesToHalt >= 0
    ensures r.Continue? ==> |r.code| < |code| || (r.code == code && r.m.loop.cyclesToHalt < m.loop.cyclesToHalt)
    ensures !r.Leave? ==> r.code == code || (|code| > 0 && r.code == code[1..])
    ensures r.Leave? && r.outcome == Suspended ==> !r.m.loop.debugBreak && r.m.loop.breakpointCycles.Some?
    ensures !(r.Leave? && r.outcome == Suspended) ==> r.m.loop.breakpointCycles == m.loop.breakpointCycles
  {
    if m.loop.debugBreak then
      var s := m.loop;
      Leave(m.(loop := s.(debugBreak := false, breakpointCycles := Some(cycles), breaks := s.breaks + 1)), Suspended)
    else if m.loop.cyclesToHalt == 0 && |code| == 0 then
      Leave(m, OutOfInstructions)
    else
      var (s1, c1, rest) := CpuStep(m.loop, code, sound);
      var (b2, c2, ended) := RunDots(m.beam, c1, ops);
      if ended then Break(Machine(s1, b2), rest) else Continue(Machine(s1, b2), c2, rest)
  }

  /** The labelled `FRAMELOOP: for (;;)` together with the counter updates after it.
      A pending DMA stall never goes negative, and a suspension leaves the break flag
      cleared and the cycle value to resume with stored; what is left of `code` is a
      suffix of it. */
  function RunFrameLoop(m: Machine, cycles: int, code: seq<Instruction>, ops: PpuOps, sound: bool): (r: Run)
    requires m.loop.cyclesToHalt >= 0
    ensures r.m.loop.cyclesToHalt >= 0
    ensures r.outcome == Suspended ==> !r.m.loop.debugBreak && r.m.loop.breakpointCycles.Some?
    ensures r.outcome != Suspended ==> r.m.loop.breakpointCycles == m.loop.breakpointCycles
    ensures Suffix(r.rest, code)
    decreases |code|, m.loop.cyclesToHalt
  {
    match LoopStep(m, cycles, code, ops, sound)
    case Leave(m', o) => Run(m', o, code)
    case Break(m', rest) => Run(m'.(loop := Finish(m'.loop)), Completed, rest)
    case Continue(m', c', rest) =>
      var r := RunFrameLoop(m', c', rest, ops, sound);
      SuffixOfRest(r.rest, rest, code);
      r
  }

  /** What one iteration does to the counters: `onBreak` runs once when it suspends,
      one `startVBlank` when it breaks out at the end of the frame, neither when it
      goes round again; the frame counters, and `breakpointCycles` unless it suspends,
      stay; the dot counter stays on a scanline when the PPU operations keep it. */
  lemma LoopStepCounts(m: Machine, cycles: int, code: seq<Instruction>, ops: PpuOps, sound: bool)
    requires m.loop.cyclesToHalt >= 0
    ensures var r := LoopStep(m, cycles, code, ops, sound);
      && (0 <= m.beam.curX <= 340 && KeepsDotCounter(ops) ==> 0 <= r.m.beam.curX <= 340)
      && r.m.loop.frameCount == m.loop.frameCount
      && r.m.loop.fpsFrameCount == m.loop.fpsFrameCount
      && r.m.beam.vblanks == m.beam.vblanks + (if r.Break? then 1 else 0)
      && r.m.loop.breaks == m.loop.breaks + (if r.Leave? && r.outcome == Suspended then 1 else 0)
      && (r.Leave? ==> (r.outcome == Suspended) == m.loop.debugBreak)
      && (r.Leave? && r.outcome == Suspended ==> !r.m.loop.debugBreak && r.m.loop.breakpointCycles == Some(cycles))
      && (!(r.Leave? && r.outcome == Suspended) ==> r.m.loop.breakpointCycles == m.loop.breakpointCycles)
      && (r.Continue? ==> r.cycles == 0)
      && (r.Leave? ==> r.outcome != Completed)
  {
    if !m.loop.debugBreak && !(m.loop.cyclesToHalt == 0 && |code| == 0) {
      var (s1, c1, rest) := CpuStep(m.loop, code, sound);
      CpuStepEffect(m.loop, code, sound);
      DotsAccounting(m.beam, c1, ops);
    }
  }

  /** What one call of the loop does to the counters: a completed frame adds one to
      `frameCount`, to `fpsFrameCount` and to the `startVBlank` calls; a suspension calls
      `onBreak` once and stores the cycle value to resume with (the value given when the
      break was pending on entry, 0 otherwise); `cyclesToHalt` stays non-negative and
      the dot counter stays on a scanline when the PPU operations keep it. */
  lemma {:induction false} FrameLoopCounts(m: Machine, cycles: int, code: seq<Instruction>, ops: PpuOps, sound: bool)
    requires m.loop.cyclesToHalt >= 0
    ensures var Run(m', o, _) := RunFrameLoop(m, cycles, code, ops, sound);
      && m'.loop.cyclesToHalt >= 0
      && (0 <= m.beam.curX <= 340 && KeepsDotCounter(ops) ==> 0 <= m'.beam.curX <= 340)
      && m'.loop.frameCount == m.loop.frameCount + (if o == Completed then 1 else 0)
      && m'.loop.fpsFrameCount == m.loop.fpsFrameCount + (if o == Completed then 1 else 0)
      && m'.beam.vblanks == m.beam.vblanks + (if o == Completed then 1 else 0)
      && m'.loop.breaks == m.loop.breaks + (if o == Suspended then 1 else 0)
      && (o == Suspended ==> !m'.loop.debugBreak && m'.loop.breakpointCycles == Some(if m.loop.debugBreak then cycles else 0))
      && (o != Suspended ==> m'.loop.breakpointCycles == m.loop.breakpointCycles)
    decreases |code|, m.loop.cyclesToHalt
  {
    LoopStepCounts(m, cycles, code, ops, sound);
    var r := LoopStep(m, cycles, code, ops, sound);
    if r.Continue? {
      FrameLoopCounts(r.m, r.cycles, r.code, ops, sound);
    }
  }

  /** `frame()`: resume a suspended frame, or start a new one, then run the loop. A
      stored cycle value is kept afterwards exactly when the frame was suspended. */
  function FrameOf(m: Machine, code: seq<Instruction>, ops: PpuOps, sound: bool): (r: Run)
    requires m.loop.cyclesToHalt >= 0
    ensures r.m.loop.cyclesToHalt >= 0
    ensures r.m.loop.breakpointCycles.Some? <==> r.outcome == Suspended
    ensures Suffix(r.rest, code)
  {
    match m.loop.breakpointCycles
    case Some(c) =>
      RunFrameLoop(m.(loop := m.loop.(breakpointCycles := None)), c, code, ops, sound)
    case None =>
      var (p, x) := ops.startFrame(m.beam.ppu, m.beam.curX);
      RunFrameLoop(m.(beam := m.beam.(ppu := p, curX := x)), 0, code, ops, sound)
  }

  // ---------------------------------------------------------------------------
  // Properties of the loop

  /** The cycle count kept in `breakpointCycles` never matters on resume: every path
      through an iteration overwrites `cycles` before the dot loop reads it. */
  lemma ResumedCyclesIgnored(m: Machine, c1: int, c2: int, code: seq<Instruction>, ops: PpuOps, sound: bool)
    requires m.loop.cyclesToHalt >= 0 && !m.loop.debugBreak
    ensures RunFrameLoop(m, c1, code, ops, sound) == RunFrameLoop(m, c2, code, ops, sound)
  {
  }

  /** Entry: a stored `breakpointCycles` is consumed and cleared and `startFrame` is
      skipped; without one `startFrame` runs, on the PPU registers and the dot counter
      alike. Either way, unless a break is pending,
      the loop runs as if it started right after an instruction. */
  lemma FrameEntry(m: Machine, code: seq<Instruction>, ops: PpuOps, sound: bool)
    requires m.loop.cyclesToHalt >= 0 && !m.loop.debugBreak
    ensures m.loop.breakpointCycles.Some? ==>
      FrameOf(m, code, ops, sound) == RunFrameLoop(m.(loop := m.loop.(breakpointCycles := None)), 0, code, ops, sound)
    ensures m.loop.breakpointCycles.None? ==>
      var (p, x) := ops.startFrame(m.beam.ppu, m.beam.curX);
      FrameOf(m, code, ops, sound) == RunFrameLoop(m.(beam := m.beam.(ppu := p, curX := x)), 0, code, ops, sound)
  {
    if m.loop.breakpointCycles.Some? {
      ResumedCyclesIgnored(m.(loop := m.loop.(breakpointCycles := None)), m.loop.breakpointCycles.value, 0, code, ops, sound);
    }
  }

  /** A break pending on entry suspends at once: the flag is cleared, the cycle value
      just consumed (or 0) is stored again, `onBreak` runs and the frame counters stay. */
  lemma PendingBreakOnEntry(m: Machine, code: seq<Instruction>, ops: PpuOps, sound: bool)
    requires m.loop.cyclesToHalt >= 0 && m.loop.debugBreak
    ensures var Run(m', o, rest) := FrameOf(m, code, ops, sound);
      && o == Suspended && rest == code
      && m'.loop.breakpointCycles == Some(if m.loop.breakpointCycles.Some? then m.loop.breakpointCycles.value else 0)
      && !m'.loop.debugBreak && m'.loop.breaks == m.loop.breaks + 1
      && m'.loop.frameCount == m.loop.frameCount && m'.loop.fpsFrameCount == m.loop.fpsFrameCount
      && (m'.beam.ppu, m'.beam.curX) ==
         (if m.loop.breakpointCycles.Some? then (m.beam.ppu, m.beam.curX) else ops.startFrame(m.beam.ppu, m.beam.curX))
  {
  }

  /** The loop state without its breakpoint bookkeeping. */
  function Unmarked(s: LoopState): LoopState {
    s.(debugBreak := false, breaks := 0, breakpointCycles := None)
  }

  /** Two runs agree on everything but the breakpoint bookkeeping (`debugBreak`,
      `breaks`, `breakpointCycles`): the same PPU side, the same counters, the same
      outcome and the same number of instructions left over. */
  predicate Agree(r1: Run, r2: Run) {
    && r1.m.beam == r2.m.beam && Unmarked(r1.m.loop) == Unmarked(r2.m.loop)
    && r1.outcome == r2.outcome && |r1.rest| == |r2.rest|
  }

  /** `r` ends as `clean` but for the breakpoint bookkeeping, once resumed with
      `frame()` on the instructions it left over if it was suspended. */
  predicate ResumesAs(r: Run, clean: Run, ops: PpuOps, sound: bool)
    requires r.m.loop.cyclesToHalt >= 0
  {
    if r.outcome == Suspended then Agree(FrameOf(r.m, r.rest, ops, sound), clean) else Agree(r, clean)
  }

  /** Instruction `k` is the first in `code` whose breakpoint fires. */
  predicate FirstBreak(code: seq<Instruction>, k: nat) {
    k < |code| && code[k].hitsBreakpoint && forall j :: 0 <= j < k ==> !code[j].hitsBreakpoint
  }

  /** `code` with the breakpoint flag of instruction `k` cleared. */
  function Unflagged(code: seq<Instruction>, k: nat): (r: seq<Instruction>)
    requires k < |code|
    ensures |r| == |code|
  {
    code[k := code[k].(hitsBreakpoint := false)]
  }

  /** `RunFrameLoop` by its first iteration. */
  lemma RunUnfold(m: Machine, c: int, code: seq<Instruction>, ops: PpuOps, sound: bool)
    requires m.loop.cyclesToHalt >= 0
    ensures var s, r := LoopStep(m, c, code, ops, sound), RunFrameLoop(m, c, code, ops, sound);
      && (s.Leave? ==> r == Run(s.m, s.outcome, code))
      && (s.Break? ==> r == Run(s.m.(loop := Finish(s.m.loop)), Completed, s.code))
      && (s.Continue? ==> r == RunFrameLoop(s.m, s.cycles, s.code, ops, sound))
  {
  }

  /** The two machines differ at most in `breaks` and `breakpointCycles`. */
  predicate Alike(m1: Machine, m2: Machine) {
    m1.beam == m2.beam && Unmarked(m1.loop) == Unmarked(m2.loop) && m1.loop.debugBreak == m2.loop.debugBreak
  }

  /** The counter updates after the loop keep two machines alike. */
  lemma FinishAlike(m1: Machine, m2: Machine)
    requires Alike(m1, m2)
    ensures Alike(m1.(loop := Finish(m1.loop)), m2.(loop := Finish(m2.loop)))
  {
    assert Unmarked(Finish(m1.loop)) == Finish(Unmarked(m1.loop));
    assert Unmarked(Finish(m2.loop)) == Finish(Unmarked(m2.loop));
  }

  /** One iteration from two alike machines goes the same way. */
  lemma StepCongruent(m1: Machine, m2: Machine, c1: int, c2: int, code: seq<Instruction>, ops: PpuOps, sound: bool)
    requires m1.loop.cyclesToHalt >= 0 && Alike(m1, m2)
    ensures var s1, s2 := LoopStep(m1, c1, code, ops, sound), LoopStep(m2, c2, code, ops, sound);
      && Alike(s1.m, s2.m)
      && s1.Continue? == s2.Continue? && s1.Break? == s2.Break?
      && (s1.Continue? ==> s1.cycles == s2.cycles)
      && (!s1.Leave? ==> s1.code == s2.code)
      && (s1.Leave? ==> s1.outcome == s2.outcome)
  {
    if !m1.loop.debugBreak && !(m1.loop.cyclesToHalt == 0 && |code| == 0) {
      var a, b := CpuStep(m1.loop, code, sound), CpuStep(m2.loop, code, sound);
      assert a.1 == b.1 && a.2 == b.2 && Unmarked(a.0) == Unmarked(b.0) && a.0.debugBreak == b.0.debugBreak;
    }
  }

  /** The breakpoint bookkeeping never steers the loop: started from two states
      that differ only in `breaks` and `breakpointCycles` (and on any cycle values),
      it runs the same way on the same instructions and ends with the same break flag. */
  lemma {:induction false} LoopCongruent(m1: Machine, m2: Machine, c1: int, c2: int, code: seq<Instruction>, ops: PpuOps, sound: bool)
    requires m1.loop.cyclesToHalt >= 0 && Alike(m1, m2)
    ensures var r1, r2 := RunFrameLoop(m1, c1, code, ops, sound), RunFrameLoop(m2, c2, code, ops, sound);
      Agree(r1, r2) && r1.rest == r2.rest && r1.m.loop.debugBreak == r2.m.loop.debugBreak
    decreases |code|, m1.loop.cyclesToHalt
  {
    StepCongruent(m1, m2, c1, c2, code, ops, sound);
    var s1, s2 := LoopStep(m1, c1, code, ops, sound), LoopStep(m2, c2, code, ops, sound);
    RunUnfold(m1, c1, code, ops, sound);
    RunUnfold(m2, c2, code, ops, sound);
    if s1.Continue? {
      LoopCongruent(s1.m, s2.m, s1.cycles, s2.cycles, s1.code, ops, sound);
    } else if s1.Break? {
      FinishAlike(s1.m, s2.m);
    }
  }

  /** Suspending at a breakpoint and resuming loses nothing. When instruction `k` is
      the first whose breakpoint fires, a loop run that suspends there, followed by
      `frame()` on the instructions it left over, ends exactly as the run with that
      breakpoint removed, but for the breakpoint bookkeeping; a run that ends the
      frame before reaching it already agrees with the run without it. */
  lemma {:induction false} LoopBreakResume(m: Machine, c: int, code: seq<Instruction>, k: nat, ops: PpuOps, sound: bool)
    requires m.loop.cyclesToHalt >= 0 && !m.loop.debugBreak
    requires FirstBreak(code, k)
    ensures var r, clean := RunFrameLoop(m, c, code, ops, sound), RunFrameLoop(m, c, Unflagged(code, k), ops, sound);
      ResumesAs(r, clean, ops, sound)
    decreases |code|, m.loop.cyclesToHalt, 1
  {
    if m.loop.cyclesToHalt > 0 {
      StallResume(m, c, code, k, ops, sound);
    } else if k > 0 {
      InstructionResume(m, c, code, k, ops, sound);
    } else {
      BreakHere(m, c, code, ops, sound);
    }
  }

  /** `LoopBreakResume` when the next iteration consumes a DMA stall. */
  lemma {:induction false} StallResume(m: Machine, c: int, code: seq<Instruction>, k: nat, ops: PpuOps, sound: bool)
    requires m.loop.cyclesToHalt > 0 && !m.loop.debugBreak
    requires FirstBreak(code, k)
    ensures var r, clean := RunFrameLoop(m, c, code, ops, sound), RunFrameLoop(m, c, Unflagged(code, k), ops, sound);
      ResumesAs(r, clean, ops, sound)
    decreases |code|, m.loop.cyclesToHalt, 0
  {
    var s := LoopStep(m, c, code, ops, sound);
    StallBeforeBreak(m, c, code, k, ops, sound);
    if s.Continue? {
      LoopBreakResume(s.m, s.cycles, code, k, ops, sound);
    }
  }

  /** `LoopBreakResume` when the next iteration reports an instruction before the one
      with the breakpoint. */
  lemma {:induction false} InstructionResume(m: Machine, c: int, code: seq<Instruction>, k: nat, ops: PpuOps, sound: bool)
    requires m.loop.cyclesToHalt == 0 && !m.loop.debugBreak
    requires 0 < k && FirstBreak(code, k)
    ensures var r, clean := RunFrameLoop(m, c, code, ops, sound), RunFrameLoop(m, c, Unflagged(code, k), ops, sound);
      ResumesAs(r, clean, ops, sound)
    decreases |code|, m.loop.cyclesToHalt, 0
  {
    var s := LoopStep(m, c, code, ops, sound);
    InstructionBeforeBreak(m, c, code, k, ops, sound);
    if s.Continue? {
      LoopBreakResume(s.m, s.cycles, code[1..], k - 1, ops, sound);
    }
  }

  /** `LoopBreakResume` for a stall iteration before the instruction with the
      breakpoint is reported: with or without that breakpoint, both runs go round
      again from the same machine on the same instructions, or both end alike. */
  lemma StallBeforeBreak(m: Machine, c: int, code: seq<Instruction>, k: nat, ops: PpuOps, sound: bool)
    requires m.loop.cyclesToHalt > 0 && !m.loop.debugBreak && k < |code|
    ensures var s, r, clean := LoopStep(m, c, code, ops, sound), RunFrameLoop(m, c, code, ops, sound), RunFrameLoop(m, c, Unflagged(code, k), ops, sound);
      && (s.Continue? ==>
          && s.code == code && 0 <= s.m.loop.cyclesToHalt < m.loop.cyclesToHalt && !s.m.loop.debugBreak
          && (ResumesAs(RunFrameLoop(s.m, s.cycles, code, ops, sound), RunFrameLoop(s.m, s.cycles, Unflagged(code, k), ops, sound), ops, sound)
              ==> ResumesAs(r, clean, ops, sound)))
      && (!s.Continue? ==> r.outcome == Completed && ResumesAs(r, clean, ops, sound))
  {
    RunUnfold(m, c, code, ops, sound);
    RunUnfold(m, c, Unflagged(code, k), ops, sound);
    StepBeforeBreak(m, c, code, k, ops, sound);
  }

  /** `LoopBreakResume` for an iteration that reports an instruction before the one
      with the breakpoint: both runs go round again from the same machine on what
      is left, the breakpoint now one instruction nearer, or both end alike. */
  lemma InstructionBeforeBreak(m: Machine, c: int, code: seq<Instruction>, k: nat, ops: PpuOps, sound: bool)
    requires m.loop.cyclesToHalt == 0 && !m.loop.debugBreak
    requires 0 < k && FirstBreak(code, k)
    ensures var s, r, clean := LoopStep(m, c, code, ops, sound), RunFrameLoop(m, c, code, ops, sound), RunFrameLoop(m, c, Unflagged(code, k), ops, sound);
      && (s.Continue? ==>
          && s.code == code[1..] && s.m.loop.cyclesToHalt >= 0 && !s.m.loop.debugBreak
          && FirstBreak(code[1..], k - 1)
          && (ResumesAs(RunFrameLoop(s.m, s.cycles, code[1..], ops, sound), RunFrameLoop(s.m, s.cycles, Unflagged(code[1..], k - 1), ops, sound), ops, sound)
              ==> ResumesAs(r, clean, ops, sound)))
      && (!s.Continue? ==> r.outcome == Completed && ResumesAs(r, clean, ops, sound))
  {
    var code' := Unflagged(code, k);
    RunUnfold(m, c, code, ops, sound);
    RunUnfold(m, c, code', ops, sound);
    StepBeforeBreak(m, c, code, k, ops, sound);
    assert code'[1..] == Unflagged(code[1..], k - 1);
    assert forall j :: 0 <= j < k - 1 ==> code[1..][j] == code[j + 1];
  }

  /** `LoopBreakResume` when the next iteration reports the instruction with the
      breakpoint: the frame suspends right after it unless that same iteration
      ends the frame. */
  lemma BreakHere(m: Machine, c: int, code: seq<Instruction>, ops: PpuOps, sound: bool)
    requires m.loop.cyclesToHalt == 0 && !m.loop.debugBreak && 0 < |code| && code[0].hitsBreakpoint
    ensures var r, clean := RunFrameLoop(m, c, code, ops, sound), RunFrameLoop(m, c, Unflagged(code, 0), ops, sound);
      ResumesAs(r, clean, ops, sound)
  {
    if LoopStep(m, c, code, ops, sound).Continue? {
      SuspendAtBreak(m, c, code, ops, sound);
    } else {
      EndAtBreak(m, c, code, ops, sound);
    }
  }

  /** The iteration that reports the instruction with the breakpoint does not end
      the frame: the next one suspends before any further instruction, and resuming
      goes on as the run without the breakpoint. */
  lemma SuspendAtBreak(m: Machine, c: int, code: seq<Instruction>, ops: PpuOps, sound: bool)
    requires m.loop.cyclesToHalt == 0 && !m.loop.debugBreak && 0 < |code| && code[0].hitsBreakpoint
    requires LoopStep(m, c, code, ops, sound).Continue?
    ensures var r, clean := RunFrameLoop(m, c, code, ops, sound), RunFrameLoop(m, c, Unflagged(code, 0), ops, sound);
      r.outcome == Suspended && |r.rest| == |code| - 1 && Agree(FrameOf(r.m, r.rest, ops, sound), clean)
  {
    var code' := Unflagged(code, 0);
    var s, s' := LoopStep(m, c, code, ops, sound), LoopStep(m, c, code', ops, sound);
    RunUnfold(m, c, code, ops, sound);
    RunUnfold(m, c, code', ops, sound);
    StepAtBreak(m, c, code, ops, sound);
    var mS := s.m.(loop := s.m.loop.(debugBreak := false, breakpointCycles := Some(s.cycles), breaks := s.m.loop.breaks + 1));
    assert LoopStep(s.m, s.cycles, s.code, ops, sound) == Leave(mS, Suspended);
    RunUnfold(s.m, s.cycles, s.code, ops, sound);
    assert RunFrameLoop(m, c, code, ops, sound) == Run(mS, Suspended, code[1..]);
    var mR := mS.(loop := mS.loop.(breakpointCycles := None));
    assert FrameOf(mS, code[1..], ops, sound) == RunFrameLoop(mR, s.cycles, code[1..], ops, sound);
    LoopCongruent(mR, s'.m, s.cycles, s'.cycles, code[1..], ops, sound);
  }

  /** The iteration that reports the instruction with the breakpoint ends the frame:
      both runs complete alike, the break still pending in one of them. */
  lemma EndAtBreak(m: Machine, c: int, code: seq<Instruction>, ops: PpuOps, sound: bool)
    requires m.loop.cyclesToHalt == 0 && !m.loop.debugBreak && 0 < |code| && code[0].hitsBreakpoint
    requires !LoopStep(m, c, code, ops, sound).Continue?
    ensures var r, clean := RunFrameLoop(m, c, code, ops, sound), RunFrameLoop(m, c, Unflagged(code, 0), ops, sound);
      r.outcome == Completed && r.m.loop.debugBreak && Agree(r, clean)
  {
    var s, s' := LoopStep(m, c, code, ops, sound), LoopStep(m, c, Unflagged(code, 0), ops, sound);
    RunUnfold(m, c, code, ops, sound);
    RunUnfold(m, c, Unflagged(code, 0), ops, sound);
    StepAtBreak(m, c, code, ops, sound);
    FinishAlike(s.m, s'.m.(loop := s'.m.loop.(debugBreak := true)));
  }

  /** An iteration before the one that reports the instruction with the breakpoint
      goes the same way with or without that breakpoint. */
  lemma StepBeforeBreak(m: Machine, c: int, code: seq<Instruction>, k: nat, ops: PpuOps, sound: bool)
    requires m.loop.cyclesToHalt >= 0 && !m.loop.debugBreak && k < |code|
    requires m.loop.cyclesToHalt > 0 || k > 0
    ensures var s, s' := LoopStep(m, c, code, ops, sound), LoopStep(m, c, Unflagged(code, k), ops, sound);
      && s'.m == s.m && !s.Leave? && s.Continue? == s'.Continue?
      && (s.Continue? ==> s'.cycles == s.cycles)
      && (m.loop.cyclesToHalt > 0 ==> s.code == code && s'.code == Unflagged(code, k))
      && (m.loop.cyclesToHalt == 0 ==> s.code == code[1..] && s'.code == Unflagged(code, k)[1..])
  {
    var a, b := CpuStep(m.loop, code, sound), CpuStep(m.loop, Unflagged(code, k), sound);
    assert a.0 == b.0 && a.1 == b.1;
  }

  /** The iteration that reports the instruction with the breakpoint goes the same
      way without it, except that the break flag stays clear. */
  lemma StepAtBreak(m: Machine, c: int, code: seq<Instruction>, ops: PpuOps, sound: bool)
    requires m.loop.cyclesToHalt == 0 && !m.loop.debugBreak && 0 < |code| && code[0].hitsBreakpoint
    ensures var s, s' := LoopStep(m, c, code, ops, sound), LoopStep(m, c, Unflagged(code, 0), ops, sound);
      && s.m.loop.debugBreak && s'.m == s.m.(loop := s.m.loop.(debugBreak := false))
      && !s.Leave? && s.Continue? == s'.Continue?
      && (s.Continue? ==> s'.cycles == s.cycles)
      && s.code == code[1..] && s'.code == code[1..]
  {
    var code' := Unflagged(code, 0);
    assert code'[1..] == code[1..];
    var a, b := CpuStep(m.loop, code, sound), CpuStep(m.loop, code', sound);
    assert b.0 == a.0.(debugBreak := false) && a.1 == b.1;
  }

  /** Suspending at a breakpoint and resuming, for whole calls of `frame()`: when the
      frame starts without a pending break and instruction `k` is the first whose
      breakpoint fires, the suspended frame followed by `frame()` on the instructions
      it left over ends as the frame without that breakpoint, but for the breakpoint
      bookkeeping. */
  lemma BreakResumeExact(m: Machine, code: seq<Instruction>, k: nat, ops: PpuOps, sound: bool)
    requires m.loop.cyclesToHalt >= 0 && !m.loop.debugBreak
    requires FirstBreak(code, k)
    ensures var r, clean := FrameOf(m, code, ops, sound), FrameOf(m, Unflagged(code, k), ops, sound);
      ResumesAs(r, clean, ops, sound)
  {
    match m.loop.breakpointCycles
    case Some(c) =>
      LoopBreakResume(m.(loop := m.loop.(breakpointCycles := None)), c, code, k, ops, sound);
    case None =>
      var (p, x) := ops.startFrame(m.beam.ppu, m.beam.curX);
      LoopBreakResume(m.(beam := m.beam.(ppu := p, curX := x)), 0, code, k, ops, sound);
  }

  /** The sprite-0 flag is raised on a dot exactly when the hit test holds for the
      dot counter before it advances, and the PPU operation that follows on the same
      dot sees it: `startVBlank` when the NMI countdown ends the frame on this dot,
      `endScanline` (with the dot counter just set to 0) on the last dot of a line.
      Without a pending end-of-frame request the dot never ends the frame. */
  lemma DotSprite0(b: BeamState, ops: PpuOps)
    ensures !b.ppu.requestEndFrame ==> DotStep(b, ops).Advanced?
    ensures var hit := b.ppu.sprite0Hit || Sprite0Hits(b.curX, b.ppu);
      var p := b.ppu.(sprite0Hit := hit, nmiCounter := if b.ppu.requestEndFrame then b.ppu.nmiCounter - 1 else b.ppu.nmiCounter);
      var d := DotStep(b, ops);
      var ends := b.ppu.requestEndFrame && b.ppu.nmiCounter == 1;
      && d.FrameEnded? == ends
      && (ends ==> (d.b.ppu, d.b.curX) == ops.startVBlank(p.(requestEndFrame := false), b.curX))
      && (!ends && b.curX + 1 == 341 ==> (d.b.ppu, d.b.curX) == ops.endScanline(p, 0))
      && (!ends && b.curX + 1 != 341 ==> d.b.curX == b.curX + 1 && d.b.ppu == p)
  {
  }

  /** While `requestEndFrame` is set (and `endScanline` leaves the request alone),
      `nmiCounter` drops once per dot and the frame ends on dot number `nmiCounter`,
      with exactly one `startVBlank`. */
  lemma {:induction false} NmiCountdown(b: BeamState, cycles: int, ops: PpuOps)
    requires b.ppu.requestEndFrame && 1 <= b.ppu.nmiCounter <= cycles
    requires forall p: Ppu :: ops.endScanline(p, 0).0.requestEndFrame == p.requestEndFrame && ops.endScanline(p, 0).0.nmiCounter == p.nmiCounter
    ensures var r := RunDots(b, cycles, ops); r.2 && cycles - r.1 == b.ppu.nmiCounter - 1 && r.0.vblanks == b.vblanks + 1
    decreases cycles
  {
    if b.ppu.nmiCounter > 1 {
      var d := DotStep(b, ops);
      assert d.Advanced?;
      assert d.b.ppu.requestEndFrame && d.b.ppu.nmiCounter == b.ppu.nmiCounter - 1;
      NmiCountdown(d.b, cycles - 1, ops);
    }
  }

  /** Without an end-of-frame request, and with `endScanline` raising none, the dot
      loop runs all its dots. */
  lemma {:induction false} DotsWithoutEndRequest(b: BeamState, cycles: int, ops: PpuOps)
    requires !b.ppu.requestEndFrame
    requires forall p: Ppu :: !p.requestEndFrame ==> !ops.endScanline(p, 0).0.requestEndFrame
    ensures var r := RunDots(b, cycles, ops); !r.2 && !r.0.ppu.requestEndFrame
    decreases cycles
  {
    if cycles > 0 {
      DotSprite0(b, ops);
      DotsWithoutEndRequest(DotStep(b, ops).b, cycles - 1, ops);
    }
  }

  /** A DMA stall of h CPU cycles, with no instruction available and no frame end in
      sight, is consumed completely without executing anything: h cycles go to the APU
      (when sound is emulated), 3 * h dots to the PPU (when the PPU operations keep the
      dot counter), and `cyclesToHalt` ends at 0. */
  lemma {:induction false} StallAccounting(m: Machine, cycles: int, ops: PpuOps, sound: bool)
    requires m.loop.cyclesToHalt >= 0 && !m.loop.debugBreak && !m.beam.ppu.requestEndFrame && 0 <= m.beam.curX <= 340
    requires KeepsDotCounter(ops)
    requires forall p: Ppu :: !p.requestEndFrame ==> !ops.endScanline(p, 0).0.requestEndFrame
    ensures var Run(m', o, _) := RunFrameLoop(m, cycles, [], ops, sound);
      && o == OutOfInstructions
      && m'.loop.cyclesToHalt == 0
      && m'.loop.apuCycles == m.loop.apuCycles + (if sound then m.loop.cyclesToHalt else 0)
      && m'.beam.curX + 341 * (m'.beam.scanlinesEnded - m.beam.scanlinesEnded) == m.beam.curX + 3 * m.loop.cyclesToHalt
    decreases m.loop.cyclesToHalt
  {
    if m.loop.cyclesToHalt > 0 {
      var (s1, c1, rest) := CpuStep(m.loop, [], sound);
      CpuStepEffect(m.loop, [], sound);
      DotsWithoutEndRequest(m.beam, c1, ops);
      DotsAccounting(m.beam, c1, ops);
      var (b2, c2, ended) := RunDots(m.beam, c1, ops);
      StallAccounting(Machine(s1, b2), c2, ops, sound);
    }
  }

  // ---------------------------------------------------------------------------
  // The orchestrator object

  /** The cartridge mapper as the orchestrator sees it: light-gun inputs and resets. */
  class Mapper {
    var zapperX: int
    var zapperY: int
    var zapperFired: bool
    var resets: nat
  }

  class NES {
    // frame loop state
    var breakpointCycles: Option<int>
    var debugBreak: bool
    var breaks: nat
    var frameCount: nat
    var fpsFrameCount: nat
    var cyclesToHalt: int
    var apuCycles: nat
    var curX: int
    var ppu: Ppu
    var scanlinesEnded: nat
    var vblanks: nat
    /** opts.emulateSound */
    const emulateSound: bool
    // ROM and mapper
    var mmap: Mapper?
    var romData: Option<seq<u8>>
    var lastFpsTime: Option<int>

    function Loop(): LoopState
      reads this
    {
      LoopState(breakpointCycles, debugBreak, breaks, frameCount, fpsFrameCount, cyclesToHalt, apuCycles)
    }

    function Beam(): BeamState
      reads this
    {
      BeamState(curX, ppu, scanlinesEnded, vblanks)
    }

    function State(): Machine
      reads this
    {
      Machine(Loop(), Beam())
    }

    ghost predicate Valid()
      reads this
    {
      cyclesToHalt >= 0
    }

    /** One iteration of the dot loop; `ended` says the frame ended on this dot. */
    method Dot(ops: PpuOps) returns (ended: bool)
      requires Valid()
      modifies this`curX, this`ppu, this`scanlinesEnded, this`vblanks
      ensures Valid()
      ensures DotStep(old(Beam()), ops) == (if ended then FrameEnded(Beam()) else Advanced(Beam()))
    {
      if curX == ppu.spr0HitX && ppu.spVisibility == 1 && ppu.scanline - 21 == ppu.spr0HitY {
        ppu := ppu.(sprite0Hit := true);
      }
      if ppu.requestEndFrame {
        ppu := ppu.(nmiCounter := ppu.nmiCounter - 1);
        if ppu.nmiCounter == 0 {
          ppu := ppu.(requestEndFrame := false);
          var r := ops.startVBlank(ppu, curX);
          ppu, curX := r.0, r.1;
          vblanks := vblanks + 1;
          return true;
        }
      }
      curX := curX + 1;
      if curX == 341 {
        curX := 0;
        var r := ops.endScanline(ppu, curX);
        ppu, curX := r.0, r.1;
        scanlinesEnded := scanlinesEnded + 1;
      }
      return false;
    }

    /** The dot loop `for (; cycles > 0; cycles--)`; `ended` says it left the frame
        loop because the frame ended, `left` is what remains in `cycles`. */
    method Dots(cycles: int, ops: PpuOps) returns (ended: bool, left: int)
      requires Valid()
      modifies this`curX, this`ppu, this`scanlinesEnded, this`vblanks
      ensures Valid()
      ensures RunDots(old(Beam()), cycles, ops) == (Beam(), left, ended)
    {
      left := cycles;
      while left > 0
        invariant Valid()
        invariant RunDots(Beam(), left, ops) == RunDots(old(Beam()), cycles, ops)
        decreases left
      {
        ended := Dot(ops);
        if ended {
          return;
        }
        left := left - 1;
      }
      ended := false;
    }

    /** The instruction-or-stall half of one frame-loop iteration. */
    method Cpu(code: seq<Instruction>, pc: nat) returns (cycles: int, pc': nat)
      requires Valid() && pc <= |code| && (cyclesToHalt > 0 || pc < |code|)
      modifies this`breakpointCycles, this`debugBreak, this`breaks, this`frameCount, this`fpsFrameCount, this`cyclesToHalt, this`apuCycles
      ensures Valid() && pc' <= |code|
      ensures CpuStep(old(Loop()), code[pc..], emulateSound) == (Loop(), cycles, code[pc'..])
    {
      pc' := pc;
      if cyclesToHalt == 0 {
        var i := code[pc];
        pc' := pc + 1;
        // cpu.emulate(): its DMA stall and breakpoint take effect during the instruction
        cycles := i.cycles;
        cyclesToHalt := cyclesToHalt + i.dmaStall;
        debugBreak := debugBreak || i.hitsBreakpoint;
        if emulateSound {
          apuCycles := apuCycles + cycles;
        }
        cycles := cycles * 3;
        assert code[pc..][1..] == code[pc'..];
      } else {
        if cyclesToHalt > 8 {
          cycles := 24;
          if emulateSound {
            apuCycles := apuCycles + 8;
          }
          cyclesToHalt := cyclesToHalt - 8;
        } else {
          cycles := cyclesToHalt * 3;
          if emulateSound {
            apuCycles := apuCycles + cyclesToHalt;
          }
          cyclesToHalt := 0;
        }
      }
    }

    /** One iteration of `FRAMELOOP`: `exit` is `None` to go round again,
        `Some(Completed)` for `break FRAMELOOP`, and the outcome of `frame()` when it
        returns from inside the loop. */
    method Iterate(cycles: int, code: seq<Instruction>, pc: nat, ops: PpuOps) returns (exit: Option<Outcome>, cycles': int, pc': nat)
      requires Valid() && pc <= |code|
      modifies this`breakpointCycles, this`debugBreak, this`breaks, this`frameCount, this`fpsFrameCount, this`cyclesToHalt, this`apuCycles,
        this`curX, this`ppu, this`scanlinesEnded, this`vblanks
      ensures Valid() && pc' <= |code|
      ensures exit.None? ==> |code| - pc' < |code| - pc || (pc' == pc && cyclesToHalt < old(cyclesToHalt))
      ensures exit.None? ==>
        RunFrameLoop(old(State()), cycles, code[pc..], ops, emulateSound) == RunFrameLoop(State(), cycles', code[pc'..], ops, emulateSound)
      ensures exit == Some(Completed) ==>
        RunFrameLoop(old(State()), cycles, code[pc..], ops, emulateSound) == Run(Machine(Finish(Loop()), Beam()), Completed, code[pc'..])
      ensures exit.Some? && exit != Some(Completed) ==>
        RunFrameLoop(old(State()), cycles, code[pc..], ops, emulateSound) == Run(State(), exit.value, code[pc'..])
    {
      cycles', pc' := cycles, pc;
      if debugBreak {
        debugBreak := false;
        breakpointCycles := Some(cycles);
        breaks := breaks + 1;
        assert LoopStep(old(State()), cycles, code[pc..], ops, emulateSound) == Leave(State(), Suspended);
        return Some(Suspended), cycles', pc';
      }
      if cyclesToHalt == 0 && pc == |code| {
        assert LoopStep(old(State()), cycles, code[pc..], ops, emulateSound) == Leave(State(), OutOfInstructions);
        return Some(OutOfInstructions), cycles', pc';
      }
      cycles', pc' := Cpu(code, pc);
      var ended;
      ended, cycles' := Dots(cycles', ops);
      exit := if ended then Some(Completed) else None;
      assert LoopStep(old(State()), cycles, code[pc..], ops, emulateSound) ==
        if ended then Break(State(), code[pc'..]) else Continue(State(), cycles', code[pc'..]);
    }

    /** The labelled `FRAMELOOP: for (;;)` with the counter updates after it, entered
        with `cycles` as the loop variable. */
    method FrameLoop(cycles: int, code: seq<Instruction>, ops: PpuOps) returns (outcome: Outcome, used: nat)
      requires Valid()
      modifies this`breakpointCycles, this`debugBreak, this`breaks, this`frameCount, this`fpsFrameCount, this`cyclesToHalt, this`apuCycles,
        this`curX, this`ppu, this`scanlinesEnded, this`vblanks
      ensures Valid()
      ensures used <= |code| && RunFrameLoop(old(State()), cycles, code, ops, emulateSound) == Run(State(), outcome, code[used..])
    {
      ghost var goal := RunFrameLoop(State(), cycles, code, ops, emulateSound);
      var cycles := cycles;
      var pc := 0;
      while true
        invariant 0 <= pc <= |code|
        invariant Valid()
        invariant RunFrameLoop(State(), cycles, code[pc..], ops, emulateSound) == goal
        decreases |code| - pc, cyclesToHalt
      {
        var exit;
        exit, cycles, pc := Iterate(cycles, code, pc, ops);
        if exit == Some(Completed) {
          assert goal == Run(Machine(Finish(Loop()), Beam()), Completed, code[pc..]);
          break;
        } else if exit.Some? {
          return exit.value, pc;
        }
      }
      CountFrame();
      outcome, used := Completed, pc;
    }

    /** The counter updates after `FRAMELOOP`, run when the frame is complete. */
    method CountFrame()
      modifies this`frameCount, this`fpsFrameCount
      ensures Loop() == Finish(old(Loop())) && Beam() == old(Beam())
    {
      fpsFrameCount := fpsFrameCount + 1;
      frameCount := frameCount + 1;
    }

    /** `frame()`, run until the frame ends, a breakpoint suspends it, or `code` (the
        instructions the CPU reports, in order) runs out. */
    method Frame(code: seq<Instruction>, ops: PpuOps) returns (outcome: Outcome, used: nat)
      requires Valid()
      modifies this`breakpointCycles, this`debugBreak, this`breaks, this`frameCount, this`fpsFrameCount, this`cyclesToHalt, this`apuCycles,
        this`curX, this`ppu, this`scanlinesEnded, this`vblanks
      ensures Valid()
      ensures used <= |code| && FrameOf(old(State()), code, ops, emulateSound) == Run(State(), outcome, code[used..])
    {
      var cycles := 0;
      if breakpointCycles.Some? {
        cycles := breakpointCycles.value;
        breakpointCycles := None;
      } else {
        var r := ops.startFrame(ppu, curX);
        ppu, curX := r.0, r.1;
      }
      outcome, used := FrameLoop(cycles, code, ops);
    }

    /** `reset()`: resets the mapper (when there is one) and zeroes the frame counters.
        What `cpu.reset`, `ppu.reset` and `papu.reset` do is not part of this model. */
    method Reset()
      requires Valid()
      modifies this, mmap
      ensures Valid()
      ensures frameCount == 0 && fpsFrameCount == 0 && lastFpsTime == None
      ensures mmap == old(mmap) && romData == old(romData)
      ensures breakpointCycles == old(breakpointCycles) && debugBreak == old(debugBreak) && breaks == old(breaks)
      ensures mmap != null ==> mmap.resets == old(mmap.resets) + 1
    {
      if mmap != null {
        mmap.resets := mmap.resets + 1;
      }
      lastFpsTime := None;
      fpsFrameCount := 0;
      frameCount := 0;
    }

    /** `loadROM(data)`, with header parsing and mapper construction abstracted into
        `created`, the mapper the ROM asks for. */
    method LoadRom(data: seq<u8>, created: Mapper)
      requires Valid()
      modifies this, mmap
      ensures Valid()
      ensures frameCount == 0 && fpsFrameCount == 0
      ensures mmap == created && romData == Some(data)
      ensures breakpointCycles == old(breakpointCycles) && debugBreak == old(debugBreak) && breaks == old(breaks)
      ensures old(mmap) != null ==> old(mmap).resets == old(mmap.resets) + 1
    {
      Reset();
      mmap := created;
      romData := Some(data);
    }

    /** `reloadROM()`: loads the held ROM again, or does nothing when there is none. */
    method ReloadRom(created: Mapper)
      requires Valid()
      modifies this, mmap
      ensures Valid()
      ensures old(romData) == None ==> unchanged(this) && (old(mmap) != null ==> unchanged(old(mmap)))
      ensures old(romData) != None ==> romData == old(romData) && mmap == created && frameCount == 0 && fpsFrameCount == 0
      ensures breakpointCycles == old(breakpointCycles) && debugBreak == old(debugBreak) && breaks == old(breaks)
    {
      if romData != None {
        LoadRom(romData.value, created);
      }
    }

    method ZapperMove(x: int, y: int)
      modifies mmap
      ensures mmap == null ==> unchanged(this)
      ensures mmap != null ==> (mmap.zapperX == x && mmap.zapperY == y
        && mmap.zapperFired == old(mmap.zapperFired) && mmap.resets == old(mmap.resets))
    {
      if mmap == null {
        return;
      }
      mmap.zapperX := x;
      mmap.zapperY := y;
    }

    method ZapperFireDown()
      modifies mmap
      ensures mmap == null ==> unchanged(this)
      ensures mmap != null ==> (mmap.zapperFired
        && mmap.zapperX == old(mmap.zapperX) && mmap.zapperY == old(mmap.zapperY) && mmap.resets == old(mmap.resets))
    {
      if mmap == null {
        return;
      }
      mmap.zapperFired := true;
    }

    method ZapperFireUp()
      modifies mmap
      ensures mmap == null ==> unchanged(this)
      ensures mmap != null ==> (!mmap.zapperFired
        && mmap.zapperX == old(mmap.zapperX) && mmap.zapperY == old(mmap.zapperY) && mmap.resets == old(mmap.resets))
    {
      if mmap == null {
        return;
      }
      mmap.zapperFired := false;
    }
  }
}
