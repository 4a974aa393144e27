/** The PPU object of the emulator: timing counters, CPU-facing registers,
    object attribute memory (OAM) and the frame buffer, with one method per
    entry point of the source class.  Each method is specified against the
    pure functions of PpuTiming, PpuRegisters and PpuPixel, and the
    per-dot update of the registers against the per-dot functions below. */
module Ppu {
  import opened NesTypes
  import opened PpuTiming
  import opened PpuRegisters
  import opened PpuPixel
  import opened PictureBusModel

  /** The registers of the PPU apart from its timing counters. */
  datatype Registers = Registers(
    vblank: bool, sprZeroHit: bool, control: ControlRegister, mask: MaskRegister,
    dataAddress: Address, tempAddress: Address, fineXScroll: Byte, firstWrite: bool,
    dataBuffer: Byte, spriteDataAddress: Byte, scanlineSprites: seq<Byte>)

  /** What the registers always satisfy. */
  predicate RegistersValid(r: Registers) {
    && r.fineXScroll < 8
    && (r.control.dataAddrIncrement == 1 || r.control.dataAddrIncrement == 32)
    && |r.scanlineSprites| <= 8
    && ValidSpriteList(r.scanlineSprites)
  }

  function Rendering(r: Registers): bool {
    r.mask.showBackground && r.mask.showSprites
  }

  // ---------------------------------------------------------------------
  // One visible dot

  /** A dot that draws a pixel: Render, dots 1..256, at column dot - 1. */
  predicate PixelDot(t: Timing) {
    t.state == Render && 0 < t.cycle <= ScanlineVisibleDots
  }

  /** The dot at which vertical blank starts. */
  predicate VblankDot(t: Timing) {
    t.state == VerticalBlank && t.cycle == 1 && t.scanline == VisibleScanlines + 1
  }

  /** The background of column x; nothing is fetched while the background is hidden. */
  function DotBackground(bus: PictureBus, r: Registers, x: int): (b: Background)
    requires r.fineXScroll < 8 && 0 <= x
    ensures !r.mask.showBackground ==> b == Background(0, false)
  {
    if r.mask.showBackground then
      BackgroundPixel(bus, r.dataAddress, r.fineXScroll, x, r.mask.hideEdgeBackground, r.control.bgPage)
    else Background(0, false)
  }

  /** The sprite layer at (x, y): the walk over the sprite list when sprites
      are shown there, else the walk's initial values. */
  function DotSprite(bus: PictureBus, oam: seq<Byte>, r: Registers, x: int, y: int): (s: SpritePixel)
    requires IsOam(oam) && ValidSpriteList(r.scanlineSprites)
  {
    if r.mask.showSprites && (!r.mask.hideEdgeSprites || x >= 8) then
      SpriteScan(bus, oam, r.scanlineSprites, x, y, r.control.longSprites, r.control.sprPage, true)
    else SpritePixel(0, true, false, false)
  }

  /** Sprite 0 is the visible sprite and lies over an opaque background pixel. */
  function ZeroHit(bus: PictureBus, oam: seq<Byte>, r: Registers, x: int, y: int): (hit: bool)
    requires IsOam(oam) && RegistersValid(r) && 0 <= x
    ensures hit ==> r.mask.showBackground && r.mask.showSprites && (!r.mask.hideEdgeSprites || x >= 8)
    ensures hit ==> (!r.mask.hideEdgeBackground || x >= 8)
    ensures hit ==> DotBackground(bus, r, x).isOpaque && DotSprite(bus, oam, r, x, y).isOpaque
  {
    r.mask.showBackground && DotSprite(bus, oam, r, x, y).spriteZero && DotBackground(bus, r, x).isOpaque
  }

  /** The palette index written for (x, y). */
  function DotPaletteIndex(bus: PictureBus, oam: seq<Byte>, r: Registers, x: int, y: int): (p: Byte)
    requires IsOam(oam) && RegistersValid(r) && 0 <= x
    ensures p < 32
  {
    Multiplex(DotBackground(bus, r, x), DotSprite(bus, oam, r, x, y))
  }

  // ---------------------------------------------------------------------
  // The register update of one call of PPU::cycle

  /** The current VRAM address after one dot. */
  function ScrollAfterDot(r: Registers, t: Timing): Address
    requires r.fineXScroll < 8 && 0 <= t.cycle
  {
    var v := r.dataAddress;
    match t.state
    case PreRender =>
      if t.cycle == 1 then v
      else if t.cycle == ScanlineVisibleDots + 2 && Rendering(r) then CopyHorizontal(v, r.tempAddress)
      else if 280 < t.cycle <= 304 && Rendering(r) then CopyVertical(v, r.tempAddress)
      else v
    case Render =>
      if 0 < t.cycle <= ScanlineVisibleDots then
        if r.mask.showBackground && FineXAt(r.fineXScroll, t.cycle - 1) == 7 then IncrementCoarseX(v) else v
      else if t.cycle == ScanlineVisibleDots + 1 && r.mask.showBackground then IncrementY(v)
      else if t.cycle == ScanlineVisibleDots + 2 && Rendering(r) then CopyHorizontal(v, r.tempAddress)
      else v
    case PostRender => v
    case VerticalBlank => v
  }

  function VblankAfterDot(vblank: bool, t: Timing): bool {
    if t.state == PreRender && t.cycle == 1 then false
    else if VblankDot(t) then true
    else vblank
  }

  function SpriteZeroAfterDot(bus: PictureBus, oam: seq<Byte>, r: Registers, t: Timing): bool
    requires IsOam(oam) && RegistersValid(r) && 0 <= t.cycle
  {
    if t.state == PreRender && t.cycle == 1 then false
    else if PixelDot(t) then r.sprZeroHit || ZeroHit(bus, oam, r, t.cycle - 1, t.scanline)
    else r.sprZeroHit
  }

  /** The sprite list for the next line, rebuilt at the end of each Render line. */
  function SpritesAfterDot(oam: seq<Byte>, r: Registers, t: Timing): seq<Byte>
    requires IsOam(oam)
  {
    if t.state == Render && t.cycle >= ScanlineEndCycle then
      SelectSprites(oam, r.spriteDataAddress / 4, t.scanline, SpriteHeight(r.control.longSprites), 8)
    else r.scanlineSprites
  }

  /** The sprite list a dot leaves holds at most eight valid sprite indices. */
  lemma SpritesAfterDotValid(oam: seq<Byte>, r: Registers, t: Timing)
    requires IsOam(oam) && RegistersValid(r)
    ensures |SpritesAfterDot(oam, r, t)| <= 8 && ValidSpriteList(SpritesAfterDot(oam, r, t))
  {
    if t.state == Render && t.cycle >= ScanlineEndCycle {
      SelectSpritesLength(oam, r.spriteDataAddress / 4, t.scanline, SpriteHeight(r.control.longSprites), 8);
      SelectSpritesMembers(oam, r.spriteDataAddress / 4, t.scanline, SpriteHeight(r.control.longSprites), 8);
    }
  }

  /** With the background hidden the VRAM address does not move at all
      during rendering: no coarse X/Y increments and no copies from temp. */
  lemma ScrollFrozenWhenBackgroundOff(r: Registers, t: Timing)
    requires r.fineXScroll < 8 && 0 <= t.cycle
    requires !r.mask.showBackground
    ensures ScrollAfterDot(r, t) == r.dataAddress
  {
  }

  /** Coarse X advances exactly at the pixel dots where the tile column ends. */
  lemma CoarseXAdvancesAtTileEnd(r: Registers, t: Timing)
    requires r.fineXScroll < 8 && PixelDot(t) && r.mask.showBackground
    ensures var v := ScrollAfterDot(r, t);
            (r.fineXScroll as int + t.cycle - 1) % 8 == 7 ==>
              CoarseX(v) as int == (CoarseX(r.dataAddress) as int + 1) % 32
    ensures var v := ScrollAfterDot(r, t);
            (r.fineXScroll as int + t.cycle - 1) % 8 != 7 ==> v == r.dataAddress
  {
  }

  /** While rendering, dot 258 of the pre-render and visible lines reloads
      the horizontal scroll from temp; the other bits stay. */
  lemma HorizontalReload(r: Registers, t: Timing)
    requires r.fineXScroll < 8 && Rendering(r)
    requires (t.state == PreRender || t.state == Render) && t.cycle == ScanlineVisibleDots + 2
    ensures ScrollAfterDot(r, t) & 0x41F == r.tempAddress & 0x41F
    ensures ScrollAfterDot(r, t) & !0x41F == r.dataAddress & !0x41F
  {
    assert ScrollAfterDot(r, t) == CopyHorizontal(r.dataAddress, r.tempAddress);
  }

  /** While rendering, dots 281-304 of the pre-render line reload the
      vertical scroll from temp; the other bits stay. */
  lemma VerticalReload(r: Registers, t: Timing)
    requires r.fineXScroll < 8 && Rendering(r)
    requires t.state == PreRender && 280 < t.cycle <= 304
    ensures ScrollAfterDot(r, t) & 0x7BE0 == r.tempAddress & 0x7BE0
    ensures ScrollAfterDot(r, t) & !0x7BE0 == r.dataAddress & !0x7BE0
  {
    assert ScrollAfterDot(r, t) == CopyVertical(r.dataAddress, r.tempAddress);
  }

  /** Vertical blank is raised only at its dot (scanline 241, dot 1) and
      dropped only at dot 1 of the pre-render line. */
  lemma VblankEdges(vblank: bool, t: Timing)
    ensures !vblank && VblankAfterDot(vblank, t) ==> VblankDot(t)
    ensures vblank && !VblankAfterDot(vblank, t) ==> t.state == PreRender && t.cycle == 1
    ensures VblankDot(t) ==> VblankAfterDot(vblank, t)
  {
  }

  /** The sprite-zero flag is raised only at a pixel dot where sprite 0 is
      the visible sprite over an opaque background, and dropped only at dot
      1 of the pre-render line. */
  lemma SpriteZeroEdges(bus: PictureBus, oam: seq<Byte>, r: Registers, t: Timing)
    requires IsOam(oam) && RegistersValid(r) && 0 <= t.cycle
    ensures !r.sprZeroHit && SpriteZeroAfterDot(bus, oam, r, t) ==>
              PixelDot(t) && DotBackground(bus, r, t.cycle - 1).isOpaque &&
              DotSprite(bus, oam, r, t.cycle - 1, t.scanline).spriteZero
    ensures r.sprZeroHit && !SpriteZeroAfterDot(bus, oam, r, t) ==> t.state == PreRender && t.cycle == 1
  {
  }

  /** If sprite k is the first in the list with a visible pixel at (x, y),
      the sprite layer there is that sprite's pixel. */
  lemma DotSpriteIsFirstHit(bus: PictureBus, oam: seq<Byte>, r: Registers, x: int, y: int, k: int)
    requires IsOam(oam) && RegistersValid(r)
    requires r.mask.showSprites && (!r.mask.hideEdgeSprites || x >= 8)
    requires 0 <= k < |r.scanlineSprites|
    requires Hit(bus, oam, r.scanlineSprites[k], x, y, r.control.longSprites, r.control.sprPage)
    requires forall j :: 0 <= j < k ==> !Hit(bus, oam, r.scanlineSprites[j], x, y, r.control.longSprites, r.control.sprPage)
    ensures DotSprite(bus, oam, r, x, y) ==
            OpaqueSpritePixel(oam, r.scanlineSprites[k],
                              SpritePattern(bus, oam, r.scanlineSprites[k], x, y, r.control.longSprites, r.control.sprPage))
  {
    SpriteScanFirstHit(bus, oam, r.scanlineSprites, x, y, r.control.longSprites, r.control.sprPage, true, k);
  }

  /** The converse of SpriteZeroEdges: at a pixel dot where both layers are
      shown, sprite 0 is the first sprite in the list with a visible pixel
      and the background pixel is opaque, the sprite-zero flag is set. */
  lemma SpriteZeroHitSets(bus: PictureBus, oam: seq<Byte>, r: Registers, t: Timing, k: int)
    requires IsOam(oam) && RegistersValid(r) && PixelDot(t)
    requires r.mask.showBackground && r.mask.showSprites && (!r.mask.hideEdgeSprites || t.cycle - 1 >= 8)
    requires 0 <= k < |r.scanlineSprites| && r.scanlineSprites[k] == 0
    requires Hit(bus, oam, r.scanlineSprites[k], t.cycle - 1, t.scanline, r.control.longSprites, r.control.sprPage)
    requires forall j :: 0 <= j < k ==>
               !Hit(bus, oam, r.scanlineSprites[j], t.cycle - 1, t.scanline, r.control.longSprites, r.control.sprPage)
    requires DotBackground(bus, r, t.cycle - 1).isOpaque
    ensures SpriteZeroAfterDot(bus, oam, r, t)
  {
    DotSpriteIsFirstHit(bus, oam, r, t.cycle - 1, t.scanline, k);
  }

  /** Where no sprite shows, the dot takes the background's index, or the
      universal background colour 0 where the background is transparent. */
  lemma DotWithoutSprites(bus: PictureBus, oam: seq<Byte>, r: Registers, x: int, y: int)
    requires IsOam(oam) && RegistersValid(r) && 0 <= x
    requires forall j :: 0 <= j < |r.scanlineSprites| ==>
               !Hit(bus, oam, r.scanlineSprites[j], x, y, r.control.longSprites, r.control.sprPage)
    ensures var bg := DotBackground(bus, r, x);
            DotPaletteIndex(bus, oam, r, x, y) == if bg.isOpaque then bg.color else 0
    ensures !ZeroHit(bus, oam, r, x, y)
  {
    if r.mask.showSprites && (!r.mask.hideEdgeSprites || x >= 8) {
      SpriteScanNoHit(bus, oam, r.scanlineSprites, x, y, r.control.longSprites, r.control.sprPage, true);
    }
  }

  /** In pre-render the sprite-zero flag drops at dot 1 and is kept
      otherwise, and the sprite list is kept. */
  lemma PreRenderDotRegisters(bus: PictureBus, oam: seq<Byte>, r: Registers, t: Timing)
    requires IsOam(oam) && RegistersValid(r) && 0 <= t.cycle && t.state == PreRender
    ensures SpriteZeroAfterDot(bus, oam, r, t) == (t.cycle != 1 && r.sprZeroHit)
    ensures SpritesAfterDot(oam, r, t) == r.scanlineSprites
  {
  }

  /** After the visible lines only the vertical-blank flag can change, and
      in PostRender not even that. */
  lemma BlankDotRegisters(bus: PictureBus, oam: seq<Byte>, r: Registers, t: Timing)
    requires IsOam(oam) && RegistersValid(r) && 0 <= t.cycle
    requires t.state == PostRender || t.state == VerticalBlank
    ensures ScrollAfterDot(r, t) == r.dataAddress
    ensures SpriteZeroAfterDot(bus, oam, r, t) == r.sprZeroHit
    ensures SpritesAfterDot(oam, r, t) == r.scanlineSprites
    ensures t.state == PostRender ==> VblankAfterDot(r.vblank, t) == r.vblank
  {
  }

  /** One step of the end-of-line sprite walk, as the loop that builds the
      list takes it: a sprite on the line is appended and uses up one slot,
      and filling the last slot completes the list. */
  lemma SelectSpritesStep(oam: seq<Byte>, i: Byte, scanline: int, range: int, j: int,
                          done: seq<Byte>, selected: seq<Byte>)
    requires IsOam(oam) && i < 64 && 0 <= j < 8
    requires done + SelectSprites(oam, i, scanline, range, 8 - j) == selected
    ensures OnScanline(oam, i, scanline, range) && j + 1 < 8 ==>
              (done + [i]) + SelectSprites(oam, i + 1, scanline, range, 8 - (j + 1)) == selected
    ensures OnScanline(oam, i, scanline, range) && j + 1 == 8 ==> done + [i] == selected
    ensures !OnScanline(oam, i, scanline, range) ==>
              done + SelectSprites(oam, i + 1, scanline, range, 8 - j) == selected
  {
    if OnScanline(oam, i, scanline, range) {
      var rest := SelectSprites(oam, i + 1, scanline, range, 8 - (j + 1));
      assert done + ([i] + rest) == (done + [i]) + rest;
      if j + 1 == 8 {
        assert rest == [];
      }
    }
  }

  /** The walk has nothing left to add once it has passed the last sprite. */
  lemma SelectSpritesDone(oam: seq<Byte>, room: nat, scanline: int, range: int,
                          done: seq<Byte>, selected: seq<Byte>)
    requires IsOam(oam)
    requires done + SelectSprites(oam, 64, scanline, range, room) == selected
    ensures done == selected
  {
    assert SelectSprites(oam, 64, scanline, range, room) == [];
  }

  // ---------------------------------------------------------------------
  // The object

  class PPU {
    var pipelineState: PipelineState
    var cycle: int
    var scanline: int
    var evenFrame: bool

    var vblank: bool
    var sprZeroHit: bool
    /** What the last PPUCTRL and PPUMASK writes set. */
    var controlFlags: ControlRegister
    var maskFlags: MaskRegister
    var dataAddress: Address
    var tempAddress: Address
    var fineXScroll: Byte
    var firstWrite: bool
    var dataBuffer: Byte
    var spriteDataAddress: Byte
    var scanlineSprites: seq<Byte>

    /** OAM: 64 sprites of 4 bytes. */
    const spriteMemory: array<Byte>
    /** The frame, indexed [y, x]. */
    const screenBuffer: array2<Pixel>
    /** The system palette: palette RAM value to colour. */
    const colors: Byte -> Pixel
    /** How often the vertical-blank callback (the CPU's NMI) has fired. */
    ghost var vblankCallbacks: nat

    function Counters(): Timing
      reads this`pipelineState, this`cycle, this`scanline, this`evenFrame
    {
      Timing(pipelineState, cycle, scanline, evenFrame)
    }

    function Regs(): Registers
      reads this`vblank, this`sprZeroHit, this`controlFlags, this`maskFlags, this`dataAddress, this`tempAddress
      reads this`fineXScroll, this`firstWrite, this`dataBuffer, this`spriteDataAddress, this`scanlineSprites
    {
      Registers(vblank, sprZeroHit, controlFlags, maskFlags, dataAddress, tempAddress, fineXScroll, firstWrite,
                dataBuffer, spriteDataAddress, scanlineSprites)
    }

    predicate Shaped() {
      spriteMemory.Length == 256 && screenBuffer.Length0 == VisibleScanlines &&
      screenBuffer.Length1 == ScanlineVisibleDots
    }

    predicate Valid()
      reads this`pipelineState, this`cycle, this`scanline, this`evenFrame
      reads this`controlFlags, this`fineXScroll, this`scanlineSprites
    {
      && Shaped()
      && fineXScroll < 8
      && (controlFlags.dataAddrIncrement == 1 || controlFlags.dataAddrIncrement == 32)
      && |scanlineSprites| <= 8 && ValidSpriteList(scanlineSprites)
      && PhaseInvariant(Counters())
    }

    /** The colour of the pixel a pixel dot draws: the system colour of the
        palette entry the two layers select. */
    function DotColor(bus: PictureBus): Pixel
      requires Valid() && PixelDot(Counters())
      reads this, spriteMemory
    {
      colors(bus.ReadPalette(DotPaletteIndex(bus, spriteMemory[..], Regs(), cycle - 1, scanline)))
    }

    /** A PPU in reset's state, with the fields reset leaves alone fixed
        too: the sprite-zero flag clear, both edge masks off (nothing
        hidden), the read buffer 0, and OAM and the frame zeroed. */
    constructor(colors: Byte -> Pixel)
      ensures Valid() && Counters() == ResetTiming && this.colors == colors
      ensures Regs() == Registers(false, false, DecodeControl(0), MaskRegister(false, false, false, true, true),
                                  0, 0, 0, true, 0, 0, [])
      ensures fresh(spriteMemory) && fresh(screenBuffer) && vblankCallbacks == 0
      ensures spriteMemory[..] == seq(256, _ => 0 as Byte)
      ensures forall y, x | 0 <= y < screenBuffer.Length0 && 0 <= x < screenBuffer.Length1 :: screenBuffer[y, x] == 0
    {
      pipelineState, cycle, scanline, evenFrame := PreRender, 0, 0, true;
      vblank, sprZeroHit := false, false;
      controlFlags := DecodeControl(0);
      maskFlags := MaskRegister(false, false, false, true, true);
      dataAddress, tempAddress, fineXScroll, firstWrite := 0, 0, 0, true;
      dataBuffer, spriteDataAddress, scanlineSprites := 0, 0, [];
      spriteMemory := new Byte[256](_ => 0);
      screenBuffer := new Pixel[VisibleScanlines, ScanlineVisibleDots]((_, _) => 0);
      this.colors := colors;
      vblankCallbacks := 0;
    }

    /** PPU::reset: power-on values for the timing, control and address
        registers, greyscale off and both layers shown; the sprite-zero
        flag, the edge masks, the read buffer and the memories are left as
        they are. */
    method Reset()
      requires Shaped()
      modifies this`pipelineState, this`cycle, this`scanline, this`evenFrame, this`vblank, this`controlFlags
      modifies this`maskFlags, this`dataAddress, this`tempAddress, this`fineXScroll, this`firstWrite
      modifies this`spriteDataAddress, this`scanlineSprites
      ensures Counters() == ResetTiming && PhaseInvariant(Counters())
      ensures controlFlags == DecodeControl(0)
      ensures maskFlags == old(maskFlags).(greyscaleMode := false, showBackground := true, showSprites := true)
      ensures !vblank && firstWrite && dataAddress == 0 && tempAddress == 0 && fineXScroll == 0
      ensures spriteDataAddress == 0 && scanlineSprites == []
      ensures Valid() && RegistersValid(Regs())
    {
      ResetRegisters();
      ResetCounters();
    }

    /** The register half of reset. */
    method ResetRegisters()
      modifies this`vblank, this`controlFlags, this`maskFlags, this`dataAddress, this`tempAddress
      modifies this`fineXScroll, this`firstWrite, this`spriteDataAddress, this`scanlineSprites
      ensures controlFlags == DecodeControl(0)
      ensures maskFlags == old(maskFlags).(greyscaleMode := false, showBackground := true, showSprites := true)
      ensures !vblank && firstWrite && dataAddress == 0 && tempAddress == 0 && fineXScroll == 0
      ensures spriteDataAddress == 0 && scanlineSprites == []
    {
      controlFlags := ControlRegister(false, false, Low, Low, 1);
      maskFlags := maskFlags.(greyscaleMode := false, showBackground := true, showSprites := true);
      vblank := false;
      firstWrite := true;
      dataAddress := 0;
      spriteDataAddress := 0;
      fineXScroll := 0;
      tempAddress := 0;
      scanlineSprites := [];
    }

    /** The timing half of reset: pre-render dot 0 of an even frame. */
    method ResetCounters()
      modifies this`pipelineState, this`cycle, this`scanline, this`evenFrame
      ensures Counters() == ResetTiming
    {
      evenFrame := true;
      cycle := 0;
      scanline := 0;
      pipelineState := PreRender;
    }

    /** PPU::cycle: one dot.  The timing counters take one Step; the VRAM
        address, the two status flags and the sprite list change as the
        per-dot functions say and no other register changes; a pixel dot
        writes its pixel and nothing else of the frame; the vertical-blank
        callback fires at the vertical-blank dot when interrupts are enabled. */
    method Cycle(bus: PictureBus)
      requires Valid()
      modifies this`pipelineState, this`cycle, this`scanline, this`evenFrame, this`dataAddress, this`vblank
      modifies this`sprZeroHit, this`scanlineSprites, this`vblankCallbacks, screenBuffer
      ensures Valid()
      ensures Counters() == Step(old(Counters()), old(Rendering(Regs())))
      ensures dataAddress == old(ScrollAfterDot(Regs(), Counters()))
      ensures vblank == old(VblankAfterDot(vblank, Counters()))
      ensures sprZeroHit == old(SpriteZeroAfterDot(bus, spriteMemory[..], Regs(), Counters()))
      ensures scanlineSprites == old(SpritesAfterDot(spriteMemory[..], Regs(), Counters()))
      ensures vblankCallbacks ==
              old(vblankCallbacks) + if VblankDot(old(Counters())) && old(controlFlags.generateInterrupt) then 1 else 0
      ensures PixelDot(old(Counters())) ==>
                screenBuffer[old(scanline), old(cycle) - 1] ==
                old(DotColor(bus))
      ensures forall y, x :: 0 <= y < VisibleScanlines && 0 <= x < ScanlineVisibleDots &&
                             !(PixelDot(old(Counters())) && y == old(scanline) && x == old(cycle) - 1) ==>
                screenBuffer[y, x] == old(screenBuffer[y, x])
    {
      match pipelineState {
        case PreRender =>
          PreRenderDot();
        case Render =>
          RenderDot(bus);
        case PostRender =>
          PostRenderDot();
        case VerticalBlank =>
          VerticalBlankDot();
      }
    }

    /** The PostRender case of PPU::cycle: the idle line after the last
        visible one, ending in vertical blank. */
    method PostRenderDot()
      requires Valid() && pipelineState == PostRender
      modifies this`pipelineState, this`cycle, this`scanline
      ensures Counters() == Step(old(Counters()), old(Rendering(Regs())))
    {
      if cycle >= ScanlineEndCycle {
        scanline := scanline + 1;
        cycle := 0;
        pipelineState := VerticalBlank;
      }
      cycle := cycle + 1;
    }

    /** The PreRender case of PPU::cycle, with the final dot increment:
        the status flags drop at dot 1, the scroll copies run while
        rendering, and the line ends one dot early on odd rendered frames. */
    method PreRenderDot()
      requires Valid() && pipelineState == PreRender
      modifies this`pipelineState, this`cycle, this`scanline, this`dataAddress, this`vblank, this`sprZeroHit
      ensures Counters() == Step(old(Counters()), old(Rendering(Regs())))
      ensures dataAddress == old(ScrollAfterDot(Regs(), Counters()))
      ensures vblank == old(VblankAfterDot(vblank, Counters())) && sprZeroHit == old(cycle != 1 && sprZeroHit)
    {
      var rendering := maskFlags.showBackground && maskFlags.showSprites;
      if cycle == 1 {
        vblank, sprZeroHit := false, false;
      } else if cycle == ScanlineVisibleDots + 2 && rendering {
        dataAddress := CopyHorizontal(dataAddress, tempAddress);
      } else if 280 < cycle <= 304 && rendering {
        dataAddress := CopyVertical(dataAddress, tempAddress);
      }
      if cycle >= ScanlineEndCycle - SkippedDot(evenFrame, rendering) {
        pipelineState := Render;
        cycle, scanline := 0, 0;
      }
      cycle := cycle + 1;
    }

    /** The VerticalBlank case of PPU::cycle, with the final dot increment. */
    method VerticalBlankDot()
      requires Valid() && pipelineState == VerticalBlank
      modifies this`pipelineState, this`cycle, this`scanline, this`evenFrame, this`vblank, this`vblankCallbacks
      ensures Counters() == Step(old(Counters()), old(Rendering(Regs())))
      ensures vblank == old(VblankAfterDot(vblank, Counters()))
      ensures vblankCallbacks ==
              old(vblankCallbacks) + if VblankDot(old(Counters())) && old(controlFlags.generateInterrupt) then 1 else 0
    {
      if cycle == 1 && scanline == VisibleScanlines + 1 {
        vblank := true;
        if controlFlags.generateInterrupt {
          vblankCallbacks := vblankCallbacks + 1;
        }
      }
      if cycle >= ScanlineEndCycle {
        scanline := scanline + 1;
        cycle := 0;
      }
      if scanline >= FrameEndScanline {
        pipelineState := PreRender;
        scanline := 0;
        evenFrame := !evenFrame;
      }
      cycle := cycle + 1;
    }

    /** The Render case of PPU::cycle, with the final dot increment. */
    method RenderDot(bus: PictureBus)
      requires Valid() && pipelineState == Render
      modifies this`pipelineState, this`cycle, this`scanline, this`dataAddress, this`sprZeroHit
      modifies this`scanlineSprites, screenBuffer
      ensures Counters() == Step(old(Counters()), old(Rendering(Regs())))
      ensures dataAddress == old(ScrollAfterDot(Regs(), Counters()))
      ensures sprZeroHit == old(SpriteZeroAfterDot(bus, spriteMemory[..], Regs(), Counters()))
      ensures scanlineSprites == old(SpritesAfterDot(spriteMemory[..], Regs(), Counters()))
      ensures |scanlineSprites| <= 8 && ValidSpriteList(scanlineSprites)
      ensures PixelDot(old(Counters())) ==>
                screenBuffer[old(scanline), old(cycle) - 1] ==
                old(DotColor(bus))
      ensures forall y, x :: 0 <= y < VisibleScanlines && 0 <= x < ScanlineVisibleDots &&
                             !(PixelDot(old(Counters())) && y == old(scanline) && x == old(cycle) - 1) ==>
                screenBuffer[y, x] == old(screenBuffer[y, x])
    {
      if 0 < cycle <= ScanlineVisibleDots {
        PixelDotWork(bus);
      } else {
        RenderScroll();
      }
      EndRenderLine();
    }

    /** The scroll updates of a Render line after its visible dots: the Y
        increment at dot 257 while the background is shown, and the copy of
        the horizontal bits from temp at dot 258 while rendering. */
    method RenderScroll()
      requires Valid() && pipelineState == Render && !(0 < cycle <= ScanlineVisibleDots)
      modifies this`dataAddress
      ensures dataAddress == old(ScrollAfterDot(Regs(), Counters()))
    {
      if cycle == ScanlineVisibleDots + 1 && maskFlags.showBackground {
        dataAddress := IncrementY(dataAddress);
      } else if cycle == ScanlineVisibleDots + 2 && maskFlags.showBackground && maskFlags.showSprites {
        dataAddress := CopyHorizontal(dataAddress, tempAddress);
      }
    }

    /** The end of every Render dot: at the line's last dot the sprites of
        the next line are selected and the line advances; after the last
        visible line the phase moves to PostRender; then the dot increment. */
    method EndRenderLine()
      requires Valid() && pipelineState == Render
      modifies this`pipelineState, this`cycle, this`scanline, this`scanlineSprites
      ensures Counters() == Step(old(Counters()), old(Rendering(Regs())))
      ensures scanlineSprites == old(SpritesAfterDot(spriteMemory[..], Regs(), Counters()))
      ensures |scanlineSprites| <= 8 && ValidSpriteList(scanlineSprites)
    {
      if cycle >= ScanlineEndCycle {
        scanlineSprites := EvaluateSprites(spriteMemory[..], spriteDataAddress, scanline, controlFlags.longSprites);
        SelectSpritesLength(spriteMemory[..], spriteDataAddress / 4, scanline, SpriteHeight(controlFlags.longSprites), 8);
        SelectSpritesMembers(spriteMemory[..], spriteDataAddress / 4, scanline, SpriteHeight(controlFlags.longSprites), 8);
        scanline := scanline + 1;
        cycle := 0;
      }
      if scanline >= VisibleScanlines {
        pipelineState := PostRender;
      }
      cycle := cycle + 1;
    }

    /** Dots 1-256 of a visible line: background fetch and coarse-X step,
        sprite walk, sprite-zero test and the pixel write at column dot - 1. */
    method PixelDotWork(bus: PictureBus)
      requires Valid() && PixelDot(Counters())
      modifies this`dataAddress, this`sprZeroHit, screenBuffer
      ensures dataAddress == old(ScrollAfterDot(Regs(), Counters()))
      ensures sprZeroHit == old(SpriteZeroAfterDot(bus, spriteMemory[..], Regs(), Counters()))
      ensures screenBuffer[old(scanline), old(cycle) - 1] ==
              old(DotColor(bus))
      ensures forall y, x :: 0 <= y < VisibleScanlines && 0 <= x < ScanlineVisibleDots &&
                             !(y == old(scanline) && x == old(cycle) - 1) ==>
                screenBuffer[y, x] == old(screenBuffer[y, x])
    {
      var x, y := cycle - 1, scanline;
      var bg, spr := DotLayers(bus, spriteMemory[..], Regs(), x, y);
      ghost var color := DotColor(bus);
      assert color == colors(bus.ReadPalette(Multiplex(bg, spr)));
      ghost var hit := SpriteZeroAfterDot(bus, spriteMemory[..], Regs(), Counters());
      assert hit == (sprZeroHit || (maskFlags.showBackground && spr.spriteZero && bg.isOpaque));
      if maskFlags.showBackground && FineXAt(fineXScroll, x) == 7 {
        dataAddress := IncrementCoarseX(dataAddress);
      }
      if !sprZeroHit && maskFlags.showBackground && spr.spriteZero && bg.isOpaque {
        sprZeroHit := true;
      }
      screenBuffer[y, x] := colors(bus.ReadPalette(Multiplex(bg, spr)));
    }

    /** PPU::doDMA: the 256-byte page lands in OAM starting at
        m_spriteDataAddress and wraps around to the start of OAM. */
    method DoDMA(page: seq<Byte>)
      requires Shaped() && |page| >= 256
      modifies spriteMemory
      ensures spriteMemory[..] == DmaImage(page[..256], spriteDataAddress)
    {
      var c := spriteDataAddress as int;
      forall j | c <= j < 256 {
        spriteMemory[j] := page[j - c];
      }
      if c != 0 {
        forall j | 0 <= j < c {
          spriteMemory[j] := page[(256 - c) + j];
        }
      }
      DmaLayout(spriteMemory[..], page[..256], spriteDataAddress);
    }

    /** PPU::control: the flags of the PPUCTRL byte, and its nametable bits
        into temp. */
    method Control(ctrl: Byte)
      requires Valid()
      modifies this`controlFlags, this`tempAddress
      ensures Valid()
      ensures controlFlags == DecodeControl(ctrl)
      ensures tempAddress == WithNametable(old(tempAddress), ctrl)
    {
      controlFlags := DecodeControl(ctrl);
      tempAddress := WithNametable(tempAddress, ctrl);
    }

    /** PPU::setMask: the flags of the PPUMASK byte. */
    method SetMask(mask: Byte)
      requires Valid()
      modifies this`maskFlags
      ensures Valid()
      ensures maskFlags == DecodeMask(mask)
    {
      maskFlags := DecodeMask(mask);
    }

    /** PPU::getStatus: the two flags as a byte; reading clears vertical
        blank and resets the write latch. */
    method GetStatus() returns (status: Byte)
      requires Valid()
      modifies this`vblank, this`firstWrite
      ensures Valid()
      ensures status == StatusByte(old(sprZeroHit), old(vblank))
      ensures !vblank && firstWrite
    {
      status := StatusByte(sprZeroHit, vblank);
      vblank := false;
      firstWrite := true;
    }

    /** PPU::setDataAddress: high byte first into temp, then the low byte,
        which also makes temp the current address. */
    method SetDataAddress(addr: Byte)
      requires Valid()
      modifies this`tempAddress, this`dataAddress, this`firstWrite
      ensures Valid()
      ensures firstWrite == !old(firstWrite)
      ensures old(firstWrite) ==>
                tempAddress == AddressHighWrite(old(tempAddress), addr) && dataAddress == old(dataAddress)
      ensures !old(firstWrite) ==>
                tempAddress == AddressLowWrite(old(tempAddress), addr) && dataAddress == tempAddress
    {
      if firstWrite {
        tempAddress := AddressHighWrite(tempAddress, addr);
        firstWrite := false;
      } else {
        tempAddress := AddressLowWrite(tempAddress, addr);
        dataAddress := tempAddress;
        firstWrite := true;
      }
    }

    /** PPU::getData: reads at the current address and steps it; when the
        stepped address is below the palettes the previous buffered byte is
        returned and the byte read is buffered. */
    method GetData(bus: PictureBus) returns (data: Byte)
      requires Valid()
      modifies this`dataAddress, this`dataBuffer
      ensures Valid()
      ensures dataAddress == old(dataAddress + controlFlags.dataAddrIncrement)
      ensures BufferedRead(dataAddress) ==> data == old(dataBuffer) && dataBuffer == bus.Read(old(dataAddress))
      ensures !BufferedRead(dataAddress) ==> data == bus.Read(old(dataAddress)) && dataBuffer == old(dataBuffer)
    {
      data := bus.Read(dataAddress);
      dataAddress := dataAddress + controlFlags.dataAddrIncrement;
      if BufferedRead(dataAddress) {
        data, dataBuffer := dataBuffer, data;
      }
    }

    /** PPU::setData: writes at the current address and steps it. */
    method SetData(bus: PictureBus, data: Byte) returns (written: PictureBus)
      requires Valid()
      modifies this`dataAddress
      ensures Valid()
      ensures written.memory == bus.memory[old(dataAddress) := data]
      ensures written.load == bus.load && written.loadPalette == bus.loadPalette
      ensures dataAddress == old(dataAddress + controlFlags.dataAddrIncrement)
    {
      written := bus.Write(dataAddress, data);
      dataAddress := dataAddress + controlFlags.dataAddrIncrement;
    }

    /** PPU::setScroll: X first (coarse X into temp, fine X into its own
        register), then Y (fine and coarse Y into temp). */
    method SetScroll(scroll: Byte)
      requires Valid()
      modifies this`tempAddress, this`fineXScroll, this`firstWrite
      ensures Valid()
      ensures firstWrite == !old(firstWrite)
      ensures old(firstWrite) ==>
                tempAddress == ScrollFirstWrite(old(tempAddress), scroll) && fineXScroll == scroll & 0x7
      ensures !old(firstWrite) ==>
                tempAddress == ScrollSecondWrite(old(tempAddress), scroll) && fineXScroll == old(fineXScroll)
    {
      if firstWrite {
        tempAddress := ScrollFirstWrite(tempAddress, scroll);
        fineXScroll := scroll & 0x7;
        firstWrite := false;
      } else {
        tempAddress := ScrollSecondWrite(tempAddress, scroll);
        firstWrite := true;
      }
    }

    /** A CPU setting the address: a status read resets the latch, then the
        two writes leave exactly hi (six bits) : lo as the current address. */
    method SetAddressAfterStatus(hi: Byte, lo: Byte)
      requires Valid()
      modifies this`vblank, this`firstWrite, this`tempAddress, this`dataAddress
      ensures Valid() && firstWrite && !vblank
      ensures dataAddress == (((hi & 0x3F) as Address) << 8) | (lo as Address) && dataAddress <= 0x3FFF
      ensures tempAddress == dataAddress
    {
      var _ := GetStatus();
      SetDataAddress(hi);
      SetDataAddress(lo);
      TwoAddressWrites(old(tempAddress), hi, lo);
    }

    /** A CPU setting the scroll: after a status read the two writes set
        coarse X, fine X, coarse Y and fine Y and keep the nametable bits. */
    method SetScrollAfterStatus(x: Byte, y: Byte)
      requires Valid()
      modifies this`vblank, this`firstWrite, this`tempAddress, this`fineXScroll
      ensures Valid() && firstWrite && fineXScroll == x & 7
      ensures CoarseX(tempAddress) == (x >> 3) as Address && CoarseY(tempAddress) == (y >> 3) as Address
      ensures FineY(tempAddress) == (y & 7) as Address && tempAddress & 0x8C00 == old(tempAddress) & 0x8C00
    {
      var _ := GetStatus();
      SetScroll(x);
      SetScroll(y);
      TwoScrollWrites(old(tempAddress), x, y);
    }

    /** The delayed read: below the palettes the second of two reads
        returns the byte at the address the first one used. */
    method ReadTwice(bus: PictureBus) returns (first: Byte, second: Byte)
      requires Valid()
      requires BufferedRead(dataAddress + controlFlags.dataAddrIncrement)
      requires BufferedRead(dataAddress + controlFlags.dataAddrIncrement + controlFlags.dataAddrIncrement)
      modifies this`dataAddress, this`dataBuffer
      ensures first == old(dataBuffer)
      ensures second == bus.Read(old(dataAddress))
      ensures dataBuffer == bus.Read(old(dataAddress + controlFlags.dataAddrIncrement))
    {
      first := GetData(bus);
      second := GetData(bus);
    }

    /** Two status reads in a row: the second never reports vertical blank
        and reports the same sprite-zero flag as the first. */
    method StatusTwice() returns (first: Byte, second: Byte)
      requires Valid()
      modifies this`vblank, this`firstWrite
      ensures Valid() && firstWrite && !vblank
      ensures first == StatusByte(old(sprZeroHit), old(vblank))
      ensures second & 0x80 == 0 && (second & 0x40 != 0) == (first & 0x40 != 0)
    {
      first := GetStatus();
      second := GetStatus();
    }
  }

  /** The two layers of one pixel dot: the background fetch when the
      background is shown, and the walk over the line's sprites when sprites
      are shown at this column. */
  method DotLayers(bus: PictureBus, oam: seq<Byte>, r: Registers, x: int, y: int)
    returns (bg: Background, spr: SpritePixel)
    requires IsOam(oam) && RegistersValid(r) && 0 <= x
    ensures bg == DotBackground(bus, r, x) && spr == DotSprite(bus, oam, r, x, y)
    ensures Multiplex(bg, spr) == DotPaletteIndex(bus, oam, r, x, y)
    ensures (r.mask.showBackground && spr.spriteZero && bg.isOpaque) == ZeroHit(bus, oam, r, x, y)
  {
    bg := Background(0, false);
    if r.mask.showBackground {
      bg := BackgroundPixel(bus, r.dataAddress, r.fineXScroll, x, r.mask.hideEdgeBackground, r.control.bgPage);
    }
    spr := SpritePixel(0, true, false, false);
    if r.mask.showSprites && (!r.mask.hideEdgeSprites || x >= 8) {
      spr := ScanSprites(bus, oam, r.scanlineSprites, x, y, r.control.longSprites, r.control.sprPage);
    }
  }

  /** The walk over the scanline's sprite list for column x of line y; it
      stops at the first sprite with a non-transparent pixel. */
  method ScanSprites(bus: PictureBus, oam: seq<Byte>, sprites: seq<Byte>, x: int, y: int,
                     longSprites: bool, page: CharacterPage) returns (pixel: SpritePixel)
    requires IsOam(oam) && ValidSpriteList(sprites)
    ensures pixel == SpriteScan(bus, oam, sprites, x, y, longSprites, page, true)
  {
    var sprOpaque := true;
    var k := 0;
    while k < |sprites|
      invariant 0 <= k <= |sprites|
      invariant SpriteScan(bus, oam, sprites[k..], x, y, longSprites, page, sprOpaque) ==
                SpriteScan(bus, oam, sprites, x, y, longSprites, page, true)
    {
      var i := sprites[k];
      assert sprites[k..][1..] == sprites[k + 1..];
      if Covers(oam, i, x) {
        var pattern := SpritePattern(bus, oam, i, x, y, longSprites, page);
        sprOpaque := pattern != 0;
        if pattern != 0 {
          return OpaqueSpritePixel(oam, i, pattern);
        }
      }
      k := k + 1;
    }
    pixel := SpritePixel(0, sprOpaque, false, false);
  }

  /** The end-of-line sprite evaluation: from sprite spriteDataAddress / 4
      on, the first eight sprites whose stored Y puts them on this line. */
  method EvaluateSprites(oam: seq<Byte>, spriteDataAddress: Byte, scanline: int, longSprites: bool)
    returns (list: seq<Byte>)
    requires IsOam(oam)
    ensures list == SelectSprites(oam, spriteDataAddress / 4, scanline, SpriteHeight(longSprites), 8)
  {
    list := [];
    var range := 8;
    if longSprites {
      range := 16;
    }
    ghost var selected := SelectSprites(oam, spriteDataAddress / 4, scanline, range, 8);
    var j := 0;
    var i: Byte := spriteDataAddress / 4;
    while i < 64
      invariant i <= 64 && 0 <= j < 8
      invariant list + SelectSprites(oam, i, scanline, range, 8 - j) == selected
      decreases 64 - i
    {
      var diff := scanline - oam[4 * (i as int)] as int;
      SelectSpritesStep(oam, i, scanline, range, j, list, selected);
      if 0 <= diff < range {
        list := list + [i];
        j := j + 1;
        if j >= 8 {
          break;
        }
      }
      i := i + 1;
    }
    if i == 64 {
      SelectSpritesDone(oam, 8 - j, scanline, range, list, selected);
    }
  }

  /** The two copies of doDMA together give DmaImage. */
  lemma DmaLayout(oam: seq<Byte>, page: seq<Byte>, c: Byte)
    requires |oam| == 256 && |page| == 256
    requires forall j :: c as int <= j < 256 ==> oam[j] == page[j - c as int]
    requires forall j :: 0 <= j < c as int ==> oam[j] == page[(256 - c as int) + j]
    ensures oam == DmaImage(page, c)
  {
    var image := DmaImage(page, c);
    forall j | 0 <= j < 256 ensures oam[j] == image[j] {
      if j < c as int {
        assert image[j] == page[256 - c as int..][j];
      } else {
        assert image[j] == page[..256 - c as int][j - c as int];
      }
    }
  }

  /** OAM after a DMA of `page` starting at `c`: byte k lands at (c + k) mod 256. */
  function DmaImage(page: seq<Byte>, c: Byte): (oam: seq<Byte>)
    requires |page| == 256
    ensures |oam| == 256
    ensures forall k :: 0 <= k < 256 ==> oam[(c as int + k) % 256] == page[k]
    ensures c == 0 ==> oam == page
  {
    page[256 - c as int..] + page[..256 - c as int]
  }
}
