/** The dot-stepping machine of PPU::cycle, reduced to the four fields that
    drive it: the pipeline phase, the dot counter, the scanline counter and
    the even/odd frame flag.  The rest of what cycle does on a dot (scroll
    updates, pixel output, sprite evaluation, status flags) lives in the PPU
    class, which advances these four fields exactly as Step does. */
module PpuTiming {

  datatype PipelineState = PreRender | Render | PostRender | VerticalBlank

  const ScanlineVisibleDots := 256
  const ScanlineEndCycle := 340
  const VisibleScanlines := 240
  const FrameEndScanline := 261

  /** m_pipelineState, m_cycle, m_scanline and m_evenFrame. */
  datatype Timing = Timing(state: PipelineState, cycle: int, scanline: int, evenFrame: bool)

  /** The phase that follows `s` in a frame. */
  function Successor(s: PipelineState): PipelineState {
    match s
    case PreRender => Render
    case Render => PostRender
    case PostRender => VerticalBlank
    case VerticalBlank => PreRender
  }

  /** What every phase implies about the counters.  The dot counter is 0 only
      right after reset, in PreRender. */
  predicate PhaseInvariant(t: Timing) {
    && 0 <= t.cycle <= ScanlineEndCycle
    && (t.state != PreRender ==> 1 <= t.cycle)
    && match t.state
       case PreRender => t.scanline == 0
       case Render => 0 <= t.scanline < VisibleScanlines
       case PostRender => t.scanline == VisibleScanlines
       case VerticalBlank => VisibleScanlines + 1 <= t.scanline < FrameEndScanline
  }

  /** One dot is dropped from the pre-render line of an odd frame while both
      background and sprites are shown. */
  function SkippedDot(evenFrame: bool, rendering: bool): (d: int)
    ensures d == 0 || d == 1
    ensures d == 1 <==> !evenFrame && rendering
  {
    if !evenFrame && rendering then 1 else 0
  }

  /** The last dot at which a phase is still on its line; reaching it ends the line. */
  function LineEnd(t: Timing, rendering: bool): int {
    if t.state == PreRender then ScanlineEndCycle - SkippedDot(t.evenFrame, rendering)
    else ScanlineEndCycle
  }

  /** One call of PPU::cycle, as far as the phase and the counters go.
      `rendering` is m_showBackground && m_showSprites. The final `+ 1`
      is the unconditional `++m_cycle` after the phase's work. */
  function Step(t: Timing, rendering: bool): (u: Timing)
    ensures PhaseInvariant(t) ==> PhaseInvariant(u)
    ensures u.evenFrame != t.evenFrame <==> t.state == VerticalBlank && u.state == PreRender
    ensures u.state == t.state || u.state == Successor(t.state)
    ensures PhaseInvariant(t) && u.state != t.state ==> t.cycle >= LineEnd(t, rendering) && u.cycle == 1
    ensures PhaseInvariant(t) && t.cycle < LineEnd(t, rendering) ==>
              u == t.(cycle := t.cycle + 1)
  {
    match t.state
    case PreRender =>
      if t.cycle >= ScanlineEndCycle - SkippedDot(t.evenFrame, rendering) then
        Timing(Render, 0 + 1, 0, t.evenFrame)
      else
        t.(cycle := t.cycle + 1)
    case Render =>
      var (c, s) := if t.cycle >= ScanlineEndCycle then (0, t.scanline + 1) else (t.cycle, t.scanline);
      Timing(if s >= VisibleScanlines then PostRender else Render, c + 1, s, t.evenFrame)
    case PostRender =>
      if t.cycle >= ScanlineEndCycle then
        Timing(VerticalBlank, 0 + 1, t.scanline + 1, t.evenFrame)
      else
        t.(cycle := t.cycle + 1)
    case VerticalBlank =>
      var (c, s) := if t.cycle >= ScanlineEndCycle then (0, t.scanline + 1) else (t.cycle, t.scanline);
      if s >= FrameEndScanline then Timing(PreRender, c + 1, 0, !t.evenFrame)
      else Timing(VerticalBlank, c + 1, s, t.evenFrame)
  }

  /** The counters right after PPU::reset. */
  const ResetTiming := Timing(PreRender, 0, 0, true)

  /** The first dot of a frame: pre-render, dot 1. */
  function FrameStart(evenFrame: bool): Timing {
    Timing(PreRender, 1, 0, evenFrame)
  }

  /** `n` consecutive calls of cycle with the rendering flags held fixed. */
  function Run(t: Timing, rendering: bool, n: nat): Timing
    decreases n
  {
    if n == 0 then t else Step(Run(t, rendering, n - 1), rendering)
  }

  function PreRenderLength(evenFrame: bool, rendering: bool): int {
    ScanlineEndCycle - SkippedDot(evenFrame, rendering)
  }

  /** Calls of cycle from one frame start to the next. */
  function FrameLength(evenFrame: bool, rendering: bool): int {
    PreRenderLength(evenFrame, rendering) + (FrameEndScanline * ScanlineEndCycle)
  }

  /** A state a frame run with fixed rendering flags can be in. */
  predicate InFrame(t: Timing, rendering: bool) {
    && PhaseInvariant(t)
    && 1 <= t.cycle
    && (t.state == PreRender ==> t.cycle <= PreRenderLength(t.evenFrame, rendering))
  }

  /** How many calls of cycle after the frame start `t` is reached. */
  function Position(t: Timing, rendering: bool): int
    requires InFrame(t, rendering)
  {
    if t.state == PreRender then t.cycle - 1
    else PreRenderLength(t.evenFrame, rendering) + ScanlineEndCycle * t.scanline + t.cycle - 1
  }

  /** The frame clock: each call moves one position on, and the call at the
      last position starts the next frame with the frame flag flipped. */
  lemma StepAdvancesPosition(t: Timing, rendering: bool)
    requires InFrame(t, rendering)
    ensures 0 <= Position(t, rendering) < FrameLength(t.evenFrame, rendering)
    ensures Position(t, rendering) < FrameLength(t.evenFrame, rendering) - 1 ==>
              && InFrame(Step(t, rendering), rendering)
              && Step(t, rendering).evenFrame == t.evenFrame
              && Position(Step(t, rendering), rendering) == Position(t, rendering) + 1
    ensures Position(t, rendering) == FrameLength(t.evenFrame, rendering) - 1 ==>
              Step(t, rendering) == FrameStart(!t.evenFrame)
  {
  }

  /** Two states of one frame at the same position are the same state. */
  lemma PositionDeterminesState(t: Timing, u: Timing, rendering: bool)
    requires InFrame(t, rendering) && InFrame(u, rendering)
    requires t.evenFrame == u.evenFrame
    requires Position(t, rendering) == Position(u, rendering)
    ensures t == u
  {
  }

  /** k calls after a frame start the machine is at position k of the same frame. */
  lemma {:induction false} FrameClock(evenFrame: bool, rendering: bool, k: nat)
    requires k < FrameLength(evenFrame, rendering)
    ensures InFrame(Run(FrameStart(evenFrame), rendering, k), rendering)
    ensures Run(FrameStart(evenFrame), rendering, k).evenFrame == evenFrame
    ensures Position(Run(FrameStart(evenFrame), rendering, k), rendering) == k
  {
    if k > 0 {
      FrameClock(evenFrame, rendering, k - 1);
      StepAdvancesPosition(Run(FrameStart(evenFrame), rendering, k - 1), rendering);
    }
  }

  /** A frame is 262 lines of 340 calls, one fewer on an odd frame with
      rendering on; it ends at the next frame start with the flag flipped. */
  lemma FrameLengthExact(evenFrame: bool, rendering: bool)
    ensures FrameLength(evenFrame, rendering) == if !evenFrame && rendering then 89079 else 89080
    ensures Run(FrameStart(evenFrame), rendering, FrameLength(evenFrame, rendering)) == FrameStart(!evenFrame)
  {
    var n := FrameLength(evenFrame, rendering);
    FrameClock(evenFrame, rendering, n - 1);
    StepAdvancesPosition(Run(FrameStart(evenFrame), rendering, n - 1), rendering);
  }

  /** Strictly inside a frame the frame flag has not flipped and no frame start is revisited. */
  lemma FlagFlipsOncePerFrame(evenFrame: bool, rendering: bool, k: nat)
    requires 0 < k < FrameLength(evenFrame, rendering)
    ensures Run(FrameStart(evenFrame), rendering, k).evenFrame == evenFrame
    ensures Run(FrameStart(evenFrame), rendering, k) != FrameStart(evenFrame)
    ensures Run(FrameStart(evenFrame), rendering, k) != FrameStart(!evenFrame)
  {
    FrameClock(evenFrame, rendering, k);
  }

  /** The dot at which vertical blank is signalled (scanline 241, dot 1) is
      reached exactly once per frame, at a fixed position. */
  lemma VblankDotOncePerFrame(evenFrame: bool, rendering: bool, k: nat)
    requires k < FrameLength(evenFrame, rendering)
    ensures var t := Run(FrameStart(evenFrame), rendering, k);
            (t.state == VerticalBlank && t.cycle == 1 && t.scanline == VisibleScanlines + 1)
            <==> k == PreRenderLength(evenFrame, rendering) + ScanlineEndCycle * (VisibleScanlines + 1)
  {
    var t := Run(FrameStart(evenFrame), rendering, k);
    FrameClock(evenFrame, rendering, k);
    var v := Timing(VerticalBlank, 1, VisibleScanlines + 1, evenFrame);
    if k == PreRenderLength(evenFrame, rendering) + ScanlineEndCycle * (VisibleScanlines + 1) {
      PositionDeterminesState(t, v, rendering);
    }
  }

  lemma {:induction false} RunAdd(t: Timing, rendering: bool, a: nat, b: nat)
    ensures Run(t, rendering, a + b) == Run(Run(t, rendering, a), rendering, b)
    decreases b
  {
    if b > 0 {
      RunAdd(t, rendering, a, b - 1);
    }
  }

  /** After reset the first call only moves to dot 1, so the first pre-render
      line has one call more than any later line. */
  lemma ResetReachesFrameStart(rendering: bool)
    ensures PhaseInvariant(ResetTiming) && !InFrame(ResetTiming, rendering)
    ensures Run(ResetTiming, rendering, 1) == FrameStart(true)
  {
  }

  /** 341 * 262 calls after reset with rendering off: back in pre-render on
      scanline 0, the frame flag flipped once. */
  lemma ResetScenario()
    ensures Run(ResetTiming, false, 341 * 262).state == PreRender
    ensures Run(ResetTiming, false, 341 * 262).scanline == 0
    ensures Run(ResetTiming, false, 341 * 262).evenFrame == false
  {
    ResetReachesFrameStart(false);
    FrameLengthExact(true, false);
    RunAdd(ResetTiming, false, 1, 89080);
    RunAdd(ResetTiming, false, 89081, 261);
    FrameClock(false, false, 261);
  }
}
