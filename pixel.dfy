/** What the Render phase computes for one visible dot: the background
    pixel fetched through the current VRAM address, the sprite pixel of the
    scanline's sprite list, and the multiplexer choosing between them; plus
    the end-of-line evaluation that builds the next line's sprite list. */
module PpuPixel {
  import opened NesTypes
  import opened PpuRegisters
  import opened PictureBusModel

  // ---------------------------------------------------------------------
  // Background

  /** The nametable byte under the current address (fine Y masked off). */
  function TileAddress(v: Address): (a: Address)
    ensures a & 0xF000 == 0x2000
    ensures a & 0x0FFF == v & 0x0FFF
  {
    0x2000 | (v & 0x0FFF)
  }

  /** Low bit-plane of row fine-Y of `tile` in `page`; the high plane is 8 bytes on. */
  function BackgroundPatternAddress(tile: Byte, v: Address, page: CharacterPage): (a: Address)
    ensures a & 0x7 == FineY(v) && a & 0x8 == 0
    ensures (a >> 4) & 0xFF == tile as Address
    ensures a >> 12 == PageBit(page)
  {
    (((tile as Address) * 16) + ((v >> 12) & 0x7)) | (PageBit(page) << 12)
  }

  /** The attribute byte covering the 4x4-tile block under the current address. */
  function AttributeAddress(v: Address): (a: Address)
    ensures a & !0x0C3F == 0x23C0
    ensures a & 0x0C00 == v & 0x0C00
    ensures (a >> 3) & 7 == CoarseY(v) >> 2
    ensures a & 7 == CoarseX(v) >> 2
  {
    0x23C0 | (v & 0x0C00) | ((v >> 4) & 0x38) | ((v >> 2) & 0x07)
  }

  /** Which 2-bit field of the attribute byte applies: bit 1 of coarse Y
      picks the lower half of the block, bit 1 of coarse X the right half. */
  function AttributeShift(v: Address): (s: int)
    ensures s == (if CoarseY(v) & 2 != 0 then 4 else 0) + (if CoarseX(v) & 2 != 0 then 2 else 0)
  {
    (((v >> 4) & 4) | (v & 2)) as int
  }

  /** Column of the current tile being drawn at screen column x. */
  function FineXAt(fineX: Byte, x: int): (c: int)
    requires fineX < 8 && 0 <= x
    ensures 0 <= c < 8
  {
    (fineX as int + x) % 8
  }

  /** Bit `shift` of a pattern-plane byte. */
  function PlaneBit(plane: Byte, shift: int): (bit: Byte)
    requires 0 <= shift < 8
    ensures bit < 2
  {
    (plane >> shift) & 1
  }

  /** Two pattern bits: bit 0 from the low plane, bit 1 from the high plane. */
  function PlaneBits(low: Byte, high: Byte): (p: Byte)
    requires low < 2 && high < 2
    ensures p < 4 && p & 1 == low && p >> 1 == high
  {
    low | (high << 1)
  }

  datatype Background = Background(color: Byte, isOpaque: bool)

  /** The background pixel made of the two fetched plane bytes and the
      attribute byte: the plane bits at `shift` are bits 0 and 1, the
      attribute field at `attributeShift` is bits 2-3, and the pixel is
      opaque iff the plane bits are not both 0. */
  function BackgroundIndex(low: Byte, high: Byte, shift: int, attribute: Byte, attributeShift: int): (b: Background)
    requires 0 <= shift < 8 && 0 <= attributeShift < 8
    ensures b.color < 16
    ensures b.isOpaque <==> b.color & 3 != 0
    ensures b.color & 1 == PlaneBit(low, shift) && (b.color >> 1) & 1 == PlaneBit(high, shift)
    ensures b.color >> 2 == (attribute >> attributeShift) & 3
  {
    var pattern := PlaneBits(PlaneBit(low, shift), PlaneBit(high, shift));
    Background(pattern | (((attribute >> attributeShift) & 0x3) << 2), pattern != 0)
  }

  /** The pattern bit of tile column c, `7 ^ c`: bit 7 is the leftmost column. */
  function ColumnBit(c: int): (s: int)
    requires 0 <= c < 8
    ensures s == 7 - c
  {
    ((7 as bv3) ^ (c as bv3)) as int
  }

  /** The background's 4-bit palette index at column x: two pattern bits
      and two attribute bits; opaque iff the pattern bits are not both 0.
      Inside the left 8 columns with the edge hidden nothing is fetched. */
  function BackgroundPixel(bus: PictureBus, v: Address, fineX: Byte, x: int, hideEdge: bool,
                           page: CharacterPage): (b: Background)
    requires fineX < 8 && 0 <= x
    ensures b.color < 16
    ensures b.isOpaque <==> b.color & 3 != 0
    ensures hideEdge && x < 8 ==> b == Background(0, false)
  {
    if hideEdge && x < 8 then Background(0, false)
    else
      var shift := ColumnBit(FineXAt(fineX, x));
      var tile := bus.Read(TileAddress(v));
      var addr := BackgroundPatternAddress(tile, v, page);
      BackgroundIndex(bus.Read(addr), bus.Read(addr + 8), shift, bus.Read(AttributeAddress(v)), AttributeShift(v))
  }

  /** Outside the hidden edge, bit 0 of the background index is the low
      plane's bit at 7 - column of the tile's pattern row, bit 1 the high
      plane's, 8 bytes on, and bits 2-3 the attribute byte's field for the
      block quadrant. */
  lemma BackgroundPixelPlanes(bus: PictureBus, v: Address, fineX: Byte, x: int, hideEdge: bool,
                              page: CharacterPage)
    requires fineX < 8 && 0 <= x && !(hideEdge && x < 8)
    ensures var b := BackgroundPixel(bus, v, fineX, x, hideEdge, page);
            var a := BackgroundPatternAddress(bus.Read(TileAddress(v)), v, page);
            var s := 7 - FineXAt(fineX, x);
            && b.color & 1 == PlaneBit(bus.Read(a), s)
            && (b.color >> 1) & 1 == PlaneBit(bus.Read(a + 8), s)
            && b.color >> 2 == (bus.Read(AttributeAddress(v)) >> AttributeShift(v)) & 3
  {
  }

  // ---------------------------------------------------------------------
  // C++ integer semantics used by the sprite fetch

  /** C++ `%` on int by the sprite height or 8: the remainder of the
      quotient truncated toward zero, so it differs from the dividend by a
      multiple of m, is smaller than m in magnitude, and has the dividend's
      sign. */
  function TruncRem(a: int, m: int): (r: int)
    requires m == 8 || m == 16
    ensures (a - r) % m == 0 && -m < r < m
    ensures a >= 0 ==> 0 <= r
    ensures a <= 0 ==> r <= 0
  {
    TruncRemDivides(a, m);
    if a >= 0 then a % m else -((-a) % m)
  }

  /** The remainder of the magnitude differs from the dividend by a
      multiple of m, on either side of zero. */
  lemma TruncRemDivides(a: int, m: int)
    requires m == 8 || m == 16
    ensures a >= 0 ==> (a - a % m) % m == 0
    ensures a < 0 ==> (a + (-a) % m) % m == 0
  {
    var b := if a >= 0 then a else -a;
    var q := b / m;
    assert b == m * q + b % m;
    var k := if a >= 0 then q else -q;
    assert (if a >= 0 then a - a % m else a + (-a) % m) == m * k;
    MultipleMod(k, m);
  }

  lemma MultipleMod(k: int, m: int)
    requires m == 8 || m == 16
    ensures (m * k) % m == 0
  {
    if m == 8 { assert (8 * k) % 8 == 0; } else { assert (16 * k) % 16 == 0; }
  }

  lemma TruncRemSmall(a: int, m: int)
    requires (m == 8 || m == 16) && 0 <= a < m
    ensures TruncRem(a, m) == a
  {
    if m == 16 { assert a % 16 == a; } else { assert a % 8 == a; }
  }

  /** C++ `^` of an int with a mask below 16, on two's complement: the low
      four bits are exclusive-ored and the rest is kept. */
  function XorLow(a: int, mask: bv4): (r: int)
    ensures r / 16 == a / 16
    ensures (r % 16) as bv4 == ((a % 16) as bv4) ^ mask
  {
    a - a % 16 + ((((a % 16) as bv4) ^ mask) as int)
  }

  /** Values below 16 exclusive-ored with the all-ones mask of their height
      are mirrored within the height. */
  lemma XorLowFlips(d: int, length: int)
    requires (length == 8 || length == 16) && 0 <= d < length
    ensures XorLow(d, (length - 1) as bv4) == length - 1 - d
  {
    var t := (d % 16) as bv4;
    assert d % 16 == d;
    if length == 8 {
      assert (t ^ 7) as int == 7 - d by { assert t < 8; }
    } else {
      assert (t ^ 15) as int == 15 - d;
    }
  }

  // ---------------------------------------------------------------------
  // Sprites.  OAM holds 64 sprites of four bytes: Y, tile, attribute, X.

  predicate IsOam(oam: seq<Byte>) { |oam| == 256 }

  function SpriteHeight(longSprites: bool): int {
    if longSprites then 16 else 8
  }

  /** First screen line of a sprite: OAM stores one less, and the sum is
      kept in a byte (Y = 255 gives line 0). */
  function SpriteTop(storedY: Byte): (top: Byte)
    ensures storedY < 255 ==> top as int == storedY as int + 1
    ensures storedY == 255 ==> top == 0
  {
    storedY + 1
  }

  /** Screen column x lies on one of sprite i's 8 columns. */
  predicate Covers(oam: seq<Byte>, i: Byte, x: int)
    requires IsOam(oam) && i < 64
  {
    0 <= x - oam[4 * (i as int) + 3] as int < 8
  }

  /** The row shown on scanline y of a sprite whose first line is `top`,
      after vertical flip.  The arithmetic is the source's int arithmetic,
      and the row can be negative: the list drawn on scanline 0 is the one
      selected at the end of scanline 239, so its sprites usually lie below
      line 0 (stored Y 236 with 8x16 sprites gives row -13), and a sprite
      whose Y changed since the list was built gives one too. */
  function SpriteRow(top: int, flipped: bool, y: int, longSprites: bool): (r: int)
    ensures -16 <= r < 16
  {
    var length := SpriteHeight(longSprites);
    var offset := TruncRem(y - top, length);
    if flipped then XorLow(offset, (length - 1) as bv4) else offset
  }

  /** On a line the sprite spans, its row is the distance from its top line,
      counted from the bottom when the sprite is flipped vertically. */
  lemma SpriteRowOnSprite(top: int, flipped: bool, y: int, longSprites: bool)
    requires 0 <= y - top < SpriteHeight(longSprites)
    ensures SpriteRow(top, flipped, y, longSprites) ==
              if flipped then SpriteHeight(longSprites) - 1 - (y - top) else y - top
  {
    var length := SpriteHeight(longSprites);
    var d := y - top;
    TruncRemSmall(d, length);
    assert SpriteRow(top, flipped, y, longSprites) == if flipped then XorLow(d, (length - 1) as bv4) else d;
    if flipped {
      XorLowFlips(d, length);
    }
  }

  /** The 16-bit two's-complement image of a small int row, as the source's
      int-to-NES_Address arithmetic sees it. */
  function RowWord(row: int): (w: Address)
    requires -16 <= row < 16
    ensures w as int == row % 0x10000
    ensures 0 <= row ==> w < 16 && w as int == row
  {
    if 0 <= row then (row as bv4) as Address else 0 - (((-row) as bv5) as Address)
  }

  /** An 8x16 sprite with stored Y 236 is on scanline 239, so the list
      selected at the end of that line, which scanline 0 draws, can hold it;
      on scanline 0 it is fetched at row -13, which the 16-bit address
      arithmetic sees as 0xFFF3. */
  lemma LineZeroNegativeRow(oam: seq<Byte>, i: Byte)
    requires IsOam(oam) && i < 64 && oam[4 * (i as int)] == 236
    ensures OnScanline(oam, i, 239, 16)
    ensures SpriteRow(SpriteTop(236) as int, false, 0, true) == -13
    ensures RowWord(-13) == 0xFFF3
  {
    assert TruncRem(-237, 16) == -13;
  }

  /** 8x8 sprites: the tile's 16 bytes in the sprite page; sums wrap in 16 bits. */
  function ShortSpriteAddress(tile: Byte, row: Address, page: CharacterPage): Address {
    var a := ((tile as Address) * 16) + row;
    if page == High then a + 0x1000 else a
  }

  lemma ShortPageField(tile: Byte, row: Address, page: CharacterPage)
    requires row < 16
    ensures ShortSpriteAddress(tile, row, page) >> 12 == PageBit(page)
  {
  }

  lemma ShortTileField(tile: Byte, row: Address, page: CharacterPage)
    requires row < 16
    ensures (ShortSpriteAddress(tile, row, page) >> 4) & 0xFF == tile as Address
  {
  }

  lemma ShortRowField(tile: Byte, row: Address, page: CharacterPage)
    requires row < 16
    ensures ShortSpriteAddress(tile, row, page) & 0xF == row
  {
  }

  /** An 8x8 sprite address is page : tile : row in bits 12, 4-11 and 0-3. */
  predicate ShortLayout(a: Address, tile: Byte, row: Address, page: CharacterPage) {
    a >> 12 == PageBit(page) && (a >> 4) & 0xFF == tile as Address && a & 0xF == row
  }

  lemma ShortSpriteFields(tile: Byte, row: Address, page: CharacterPage)
    requires row < 16
    ensures ShortLayout(ShortSpriteAddress(tile, row, page), tile, row, page)
  {
    ShortPageField(tile, row, page);
    ShortTileField(tile, row, page);
    ShortRowField(tile, row, page);
  }

  /** 8x16 sprites: tile bit 0 picks the page and the rest an even/odd tile
      pair; rows 8-15 come from the second tile of the pair. */
  function LongSpriteAddress(tile: Byte, row: Address): Address {
    var row2 := (row & 7) | ((row & 8) << 1);
    ((((tile >> 1) as Address) * 32) + row2) | (((tile & 1) as Address) << 12)
  }

  /** An 8x16 sprite address is tile bit 0 : tile bits 1-7 : row bit 3 :
      plane 0 : row bits 0-2, in bits 12, 5-11, 4, 3 and 0-2. */
  predicate LongLayout(a: Address, tile: Byte, row: Address) {
    && a >> 12 == (tile & 1) as Address
    && (a >> 5) & 0x7F == (tile >> 1) as Address
    && (a >> 4) & 1 == (row >> 3) & 1
    && a & 8 == 0
    && a & 7 == row & 7
  }

  lemma LongSpriteFields(tile: Byte, row: Address)
    requires row < 16
    ensures LongLayout(LongSpriteAddress(tile, row), tile, row)
  {
  }

  /** Address of the low bit-plane byte of the sprite's row; the high plane is 8 bytes on. */
  function SpritePatternAddress(oam: seq<Byte>, i: Byte, y: int, longSprites: bool,
                                page: CharacterPage): Address
    requires IsOam(oam) && i < 64
  {
    var tile := oam[4 * (i as int) + 1];
    var row := RowWord(SpriteRow(SpriteTop(oam[4 * (i as int)]) as int, oam[4 * (i as int) + 2] & 0x80 != 0,
                                 y, longSprites));
    if !longSprites then ShortSpriteAddress(tile, row, page) else LongSpriteAddress(tile, row)
  }

  /** On a line the sprite spans, the pattern address selects the sprite's
      tile (the tile pair for 8x16 sprites), the page, and the flipped or
      unflipped row. */
  lemma SpritePatternAddressOnSprite(oam: seq<Byte>, i: Byte, y: int, longSprites: bool,
                                     page: CharacterPage)
    requires IsOam(oam) && i < 64
    requires 0 <= y - SpriteTop(oam[4 * (i as int)]) as int < SpriteHeight(longSprites)
    ensures var a := SpritePatternAddress(oam, i, y, longSprites, page);
            var tile := oam[4 * (i as int) + 1];
            var d := y - SpriteTop(oam[4 * (i as int)]) as int;
            var row := if oam[4 * (i as int) + 2] & 0x80 != 0 then SpriteHeight(longSprites) - 1 - d else d;
            && 0 <= row < SpriteHeight(longSprites)
            && (!longSprites ==> ShortLayout(a, tile, RowWord(row), page))
            && (longSprites ==> LongLayout(a, tile, RowWord(row)))
  {
    var top := SpriteTop(oam[4 * (i as int)]) as int;
    var flipped := oam[4 * (i as int) + 2] & 0x80 != 0;
    SpriteRowOnSprite(top, flipped, y, longSprites);
    var tile := oam[4 * (i as int) + 1];
    var d := y - top;
    var row := if flipped then SpriteHeight(longSprites) - 1 - d else d;
    assert SpriteRow(top, flipped, y, longSprites) == row;
    var w := RowWord(row);
    if longSprites {
      LongSpriteFields(tile, w);
    } else {
      ShortSpriteFields(tile, w, page);
    }
  }

  /** Bit position, within a pattern byte, of the sprite's pixel at column x
      (bit 7 is the leftmost column unless the sprite is flipped horizontally). */
  function SpriteColumnShift(spriteX: Byte, mirrored: bool, x: int): (s: int)
    requires 0 <= x - spriteX as int < 8
    ensures s == if mirrored then x - spriteX as int else 7 - (x - spriteX as int)
  {
    var shift := TruncRem(x - spriteX as int, 8);
    if !mirrored then (((shift as bv3) ^ 7) as int) else shift
  }

  /** The two pattern bits of sprite i at (x, y): bit 0 from the low plane
      and bit 1 from the high plane, 8 bytes on, both at the sprite's
      column bit. */
  function SpritePattern(bus: PictureBus, oam: seq<Byte>, i: Byte, x: int, y: int, longSprites: bool,
                         page: CharacterPage): (p: Byte)
    requires IsOam(oam) && i < 64 && Covers(oam, i, x)
    ensures p < 4
  {
    var addr := SpritePatternAddress(oam, i, y, longSprites, page);
    var shift := SpriteColumnShift(oam[4 * (i as int) + 3], oam[4 * (i as int) + 2] & 0x40 != 0, x);
    PlaneBits(PlaneBit(bus.Read(addr), shift), PlaneBit(bus.Read(addr + 8), shift))
  }

  /** Bit 0 of the sprite's pattern value is the low plane's bit at the
      sprite's column, and bit 1 the high plane's, 8 bytes on. */
  lemma SpritePatternPlanes(bus: PictureBus, oam: seq<Byte>, i: Byte, x: int, y: int, longSprites: bool,
                            page: CharacterPage)
    requires IsOam(oam) && i < 64 && Covers(oam, i, x)
    ensures var p := SpritePattern(bus, oam, i, x, y, longSprites, page);
            var a := SpritePatternAddress(oam, i, y, longSprites, page);
            var s := SpriteColumnShift(oam[4 * (i as int) + 3], oam[4 * (i as int) + 2] & 0x40 != 0, x);
            && p & 1 == PlaneBit(bus.Read(a), s)
            && p >> 1 == PlaneBit(bus.Read(a + 8), s)
  {
  }

  /** Sprite i shows a non-transparent pixel at (x, y). */
  predicate Hit(bus: PictureBus, oam: seq<Byte>, i: Byte, x: int, y: int, longSprites: bool,
                page: CharacterPage)
    requires IsOam(oam) && i < 64
  {
    Covers(oam, i, x) && SpritePattern(bus, oam, i, x, y, longSprites, page) != 0
  }

  datatype SpritePixel = SpritePixel(color: Byte, isOpaque: bool, foreground: bool, spriteZero: bool)

  /** The pixel an opaque sprite contributes: a sprite palette (bit 4 set),
      palette number from attribute bits 0-1, in front unless attribute bit 5. */
  function OpaqueSpritePixel(oam: seq<Byte>, i: Byte, pattern: Byte): (p: SpritePixel)
    requires IsOam(oam) && i < 64 && 0 < pattern < 4
    ensures p.isOpaque && p.color < 32 && p.color & 0x10 != 0 && p.color & 3 == pattern
    ensures (p.color >> 2) & 3 == oam[4 * (i as int) + 2] & 3
    ensures p.foreground <==> oam[4 * (i as int) + 2] & 0x20 == 0
    ensures p.spriteZero <==> i == 0
  {
    var attribute := oam[4 * (i as int) + 2];
    SpritePixel(pattern | 0x10 | ((attribute & 0x3) << 2), true, attribute & 0x20 == 0, i == 0)
  }

  predicate ValidSpriteList(sprites: seq<Byte>) {
    forall k :: 0 <= k < |sprites| ==> sprites[k] < 64
  }

  /** The walk over the scanline's sprite list at one column: the first
      sprite with a non-transparent pixel wins; `sprOpaque` is the walk's
      running "sprite opaque" flag, which starts true and is cleared by a
      covering but transparent sprite. */
  function SpriteScan(bus: PictureBus, oam: seq<Byte>, sprites: seq<Byte>, x: int, y: int,
                      longSprites: bool, page: CharacterPage, sprOpaque: bool): (r: SpritePixel)
    requires IsOam(oam) && ValidSpriteList(sprites)
    ensures r.color != 0 ==> r.isOpaque && r.color < 32 && r.color & 0x10 != 0
    ensures r.color == 0 ==> !r.foreground && !r.spriteZero
    ensures !r.isOpaque ==> r.color == 0
    decreases |sprites|
  {
    if sprites == [] then SpritePixel(0, sprOpaque, false, false)
    else
      var i := sprites[0];
      if !Covers(oam, i, x) then
        SpriteScan(bus, oam, sprites[1..], x, y, longSprites, page, sprOpaque)
      else
        var pattern := SpritePattern(bus, oam, i, x, y, longSprites, page);
        if pattern == 0 then SpriteScan(bus, oam, sprites[1..], x, y, longSprites, page, false)
        else OpaqueSpritePixel(oam, i, pattern)
  }

  /** Sprite priority: the earliest sprite in the list with a visible pixel
      at the column decides the sprite pixel. */
  lemma {:induction false} SpriteScanFirstHit(bus: PictureBus, oam: seq<Byte>, sprites: seq<Byte>, x: int,
                                              y: int, longSprites: bool, page: CharacterPage,
                                              sprOpaque: bool, k: int)
    requires IsOam(oam) && ValidSpriteList(sprites)
    requires 0 <= k < |sprites| && Hit(bus, oam, sprites[k], x, y, longSprites, page)
    requires forall j :: 0 <= j < k ==> !Hit(bus, oam, sprites[j], x, y, longSprites, page)
    ensures SpriteScan(bus, oam, sprites, x, y, longSprites, page, sprOpaque) ==
            OpaqueSpritePixel(oam, sprites[k], SpritePattern(bus, oam, sprites[k], x, y, longSprites, page))
    decreases k
  {
    if k > 0 {
      assert !Hit(bus, oam, sprites[0], x, y, longSprites, page);
      var rest := sprites[1..];
      assert rest[k - 1] == sprites[k];
      forall j | 0 <= j < k - 1
        ensures !Hit(bus, oam, rest[j], x, y, longSprites, page)
      {
        assert rest[j] == sprites[j + 1];
      }
      var o := if Covers(oam, sprites[0], x) then false else sprOpaque;
      SpriteScanFirstHit(bus, oam, rest, x, y, longSprites, page, o, k - 1);
    }
  }

  /** With no visible sprite pixel at the column there is no sprite colour;
      the walk's flag stays set only if no sprite covers the column at all. */
  lemma {:induction false} SpriteScanNoHit(bus: PictureBus, oam: seq<Byte>, sprites: seq<Byte>, x: int,
                                           y: int, longSprites: bool, page: CharacterPage, sprOpaque: bool)
    requires IsOam(oam) && ValidSpriteList(sprites)
    requires forall j :: 0 <= j < |sprites| ==> !Hit(bus, oam, sprites[j], x, y, longSprites, page)
    ensures SpriteScan(bus, oam, sprites, x, y, longSprites, page, sprOpaque) ==
            SpritePixel(0, sprOpaque && forall j :: 0 <= j < |sprites| ==> !Covers(oam, sprites[j], x), false, false)
    decreases |sprites|
  {
    if sprites != [] {
      var rest := sprites[1..];
      forall j | 0 <= j < |rest|
        ensures !Hit(bus, oam, rest[j], x, y, longSprites, page)
      {
        assert rest[j] == sprites[j + 1];
      }
      var o := if Covers(oam, sprites[0], x) then false else sprOpaque;
      SpriteScanNoHit(bus, oam, rest, x, y, longSprites, page, o);
      assert (forall j :: 0 <= j < |sprites| ==> !Covers(oam, sprites[j], x)) <==>
             !Covers(oam, sprites[0], x) && (forall j :: 0 <= j < |rest| ==> !Covers(oam, rest[j], x)) by {
        forall j | 0 <= j < |rest| ensures rest[j] == sprites[j + 1] { }
      }
    }
  }

  // ---------------------------------------------------------------------
  // The multiplexer

  /** The palette index of the dot.  A sprite pixel shows where the
      background is transparent, or where it is in front; an opaque
      background shows otherwise; where neither is opaque the index is 0,
      the universal background colour. */
  function Multiplex(bg: Background, spr: SpritePixel): (paletteAddr: Byte)
    ensures spr.color == 0 && !spr.foreground ==> paletteAddr == if bg.isOpaque then bg.color else 0
    ensures spr.color != 0 && spr.isOpaque && (spr.foreground || !bg.isOpaque) ==> paletteAddr == spr.color
    ensures spr.isOpaque && !spr.foreground && bg.isOpaque ==> paletteAddr == bg.color
    ensures bg.color < 16 && spr.color < 32 ==> paletteAddr < 32
  {
    if (!bg.isOpaque && spr.isOpaque) || (bg.isOpaque && spr.isOpaque && spr.foreground) then spr.color
    else if !bg.isOpaque && !spr.isOpaque then 0
    else bg.color
  }

  // ---------------------------------------------------------------------
  // Sprite evaluation for the next scanline

  /** Sprite i's Y puts it within `range` lines above or at `scanline`. */
  predicate OnScanline(oam: seq<Byte>, i: Byte, scanline: int, range: int)
    requires IsOam(oam) && i < 64
  {
    0 <= scanline - oam[4 * (i as int)] as int < range
  }

  /** The sprite indices from i on that are on the scanline, in index order,
      at most `room` of them. */
  function SelectSprites(oam: seq<Byte>, i: Byte, scanline: int, range: int, room: nat): seq<Byte>
    requires IsOam(oam) && i <= 64
    decreases 64 - i
  {
    if i == 64 || room == 0 then []
    else if OnScanline(oam, i, scanline, range) then [i] + SelectSprites(oam, i + 1, scanline, range, room - 1)
    else SelectSprites(oam, i + 1, scanline, range, room)
  }

  /** How many of the sprites from..to-1 are on the scanline. */
  function CountOnScanline(oam: seq<Byte>, from: Byte, to: Byte, scanline: int, range: int): nat
    requires IsOam(oam) && from <= to <= 64
    decreases 64 - from
  {
    if from == to then 0
    else (if OnScanline(oam, from, scanline, range) then 1 else 0) + CountOnScanline(oam, from + 1, to, scanline, range)
  }

  /** Every entry is a sprite index from i on that is on the scanline. */
  lemma {:induction false} SelectSpritesMembers(oam: seq<Byte>, i: Byte, scanline: int, range: int, room: nat)
    requires IsOam(oam) && i <= 64
    ensures forall k :: 0 <= k < |SelectSprites(oam, i, scanline, range, room)| ==>
              && i <= SelectSprites(oam, i, scanline, range, room)[k] < 64
              && OnScanline(oam, SelectSprites(oam, i, scanline, range, room)[k], scanline, range)
    decreases 64 - i
  {
    if i < 64 && room > 0 {
      var room': nat := if OnScanline(oam, i, scanline, range) then room - 1 else room;
      SelectSpritesMembers(oam, i + 1, scanline, range, room');
    }
  }

  /** Entries are in increasing index order, so none is repeated. */
  lemma {:induction false} SelectSpritesIncreasing(oam: seq<Byte>, i: Byte, scanline: int, range: int, room: nat)
    requires IsOam(oam) && i <= 64
    ensures forall a, b :: 0 <= a < b < |SelectSprites(oam, i, scanline, range, room)| ==>
              SelectSprites(oam, i, scanline, range, room)[a] < SelectSprites(oam, i, scanline, range, room)[b]
    decreases 64 - i
  {
    if i < 64 && room > 0 {
      var room': nat := if OnScanline(oam, i, scanline, range) then room - 1 else room;
      SelectSpritesIncreasing(oam, i + 1, scanline, range, room');
      SelectSpritesMembers(oam, i + 1, scanline, range, room');
    }
  }

  /** The list is as long as the number of sprites on the scanline, capped at `room`. */
  lemma {:induction false} SelectSpritesLength(oam: seq<Byte>, i: Byte, scanline: int, range: int, room: nat)
    requires IsOam(oam) && i <= 64
    ensures var n := CountOnScanline(oam, i, 64, scanline, range);
            |SelectSprites(oam, i, scanline, range, room)| == if n < room then n else room
    decreases 64 - i
  {
    if i < 64 && room > 0 {
      var room': nat := if OnScanline(oam, i, scanline, range) then room - 1 else room;
      SelectSpritesLength(oam, i + 1, scanline, range, room');
    }
  }

  /** Exactly the first `room` sprites on the scanline are selected: index j
      is in the list iff it is on the scanline, not before the walk's start,
      and fewer than `room` sprites on the scanline precede it. */
  lemma {:induction false} SelectSpritesExact(oam: seq<Byte>, i: Byte, scanline: int, range: int,
                                              room: nat, j: Byte)
    requires IsOam(oam) && i <= 64
    ensures j in SelectSprites(oam, i, scanline, range, room) <==>
            i <= j < 64 && OnScanline(oam, j, scanline, range) && CountOnScanline(oam, i, j, scanline, range) < room
    decreases 64 - i
  {
    if i < 64 && room > 0 {
      var on := OnScanline(oam, i, scanline, range);
      var room': nat := if on then room - 1 else room;
      if j == i {
        SelectSpritesMembers(oam, i + 1, scanline, range, room');
      } else {
        SelectSpritesExact(oam, i + 1, scanline, range, room', j);
        if i < j < 64 {
          assert CountOnScanline(oam, i, j, scanline, range) ==
                 (if on then 1 else 0) + CountOnScanline(oam, i + 1, j, scanline, range);
        }
      }
    }
  }

  /** A sprite selected from line s shows an in-range pattern row on line s + 1. */
  lemma SelectedSpriteRowInRange(oam: seq<Byte>, i: Byte, scanline: int, longSprites: bool)
    requires IsOam(oam) && i < 64 && 0 <= scanline < 240
    requires OnScanline(oam, i, scanline, SpriteHeight(longSprites))
    ensures var top := SpriteTop(oam[4 * (i as int)]) as int;
            0 <= scanline + 1 - top < SpriteHeight(longSprites)
  {
  }
}
