# nes-py PPU and CNROM mapper in Dafny

This project models two parts of the nes-py NES emulator. It proves their properties in Dafny.

1. **The picture processing unit (PPU)** in `nes_py/cpp/ppu.cpp`, modelled as class `Ppu.PPU`. Its fields are those of the source class:
   - the four timing counters: phase, dot, scanline and even/odd frame;
   - the status flags;
   - the control and mask registers;
   - the current and staging VRAM addresses (`dataAddress`, `tempAddress`), fine X, and the write latch;
   - the read buffer, the OAM cursor and the sprite list;
   - OAM, a 256-byte `array`;
   - the 240×256 frame, an `array2`.

   `Cycle` is one call of `PPU::cycle`. Its contract is stated against pure reference functions:
   - `PpuTiming.Step` for the counters;
   - `ScrollAfterDot`, `VblankAfterDot`, `SpriteZeroAfterDot` and `SpritesAfterDot` for the registers one dot changes;
   - `DotColor` for the pixel the dot writes.

   The port methods are `Control`, `SetMask`, `GetStatus`, `SetDataAddress`, `SetScroll`, `GetData`, `SetData` and `DoDMA`. Each one states its whole new state:
   - `Control`, `SetMask`, `GetStatus`, `SetDataAddress` and `SetScroll` through the bit-field functions in `PpuRegisters`;
   - `GetData` and `SetData` through the bus read and the bus write;
   - `DoDMA` through `Ppu.DmaImage`, the page rotated to start at the OAM cursor.

   Lemmas about these functions prove the following:
   - the frame clock. A scanline is 340 calls and a frame is 262 lines. An odd frame with rendering on is one call shorter. The frame flag flips once per frame. Vertical blank is signalled once per frame.
   - the scroll increments, including the coarse-Y 29/31 quirk;
   - sprite priority and the pixel multiplexer;
   - the sprite-list rebuild: at most eight sprites, in increasing order, exactly the first ones on the line;
   - the layout of the OAM DMA.

2. **The CNROM mapper's PRG side** in `nes_py/cpp/mappers/mapper_CNROM.cpp`, modelled as class `MapperCnrom.MapperCNROM`. It holds the ROM as a `seq<Byte>` and the one-bank flag. `ReadPRG` and `GetPagePtr` (an offset rather than a pointer) resolve an address against a plain-integer offset function. Lemmas prove:
   - one-bank mirroring;
   - that the page pointer and the read agree;
   - that the whole window resolves for a full-sized ROM.

Module layout:
- `types.dfy`: `NesTypes` (8-bit bytes, 16-bit wrapping addresses) and `PictureBusModel`.
- `registers.dfy`: `PpuRegisters`.
- `timing.dfy`: `PpuTiming`.
- `pixel.dfy`: `PpuPixel`.
- `ppu.dfy`: `Ppu`.
- `mapper_cnrom.dfy`: `MapperCnrom`.

Points where the code's behaviour is easy to misread:
- `cycle` sets the dot to 0 at the end of a line and then increments it. So every line after the first one following `reset` takes 340 calls (dots 1..340), not 341.
- `doDMA` stores page byte k at OAM[(c + k) mod 256], where c is the OAM cursor.
- `getData` tests the *incremented* address against 0x3F00 to decide whether the read is buffered.
- `reset` leaves the sprite-zero flag, the two edge masks and the read buffer as they were.
- The sprite walk's "sprite opaque" flag starts true and is cleared only by a sprite that covers the column with a transparent pixel. So at a column no sprite covers, and wherever sprites are hidden, the sprite layer is "opaque" with colour 0. Since that colour-0 pixel is never in front, the multiplexer still picks the background's colour, or 0 where the background is transparent, just as for a transparent sprite layer (`Multiplex`'s first ensures).

## Model

| member | source | states |
|---|---|---|
| PpuRegisters.IncrementCoarseX | nes_py/cpp/ppu.cpp:93-104 | coarse X becomes (old + 1) mod 32; the horizontal nametable bit flips iff old coarse X was 31; no other bit changes |
| PpuRegisters.IncrementFineY | nes_py/cpp/ppu.cpp:174-175 | below 7, fine Y steps by one and no other bit changes |
| PpuRegisters.ClearFineY | nes_py/cpp/ppu.cpp:177 | fine Y becomes 0; coarse Y, the vertical nametable and the horizontal bits are kept |
| PpuRegisters.SwitchNametableY | nes_py/cpp/ppu.cpp:181 | only the vertical nametable bit flips |
| PpuRegisters.WithCoarseY | nes_py/cpp/ppu.cpp:187 | coarse Y is replaced and fine Y, the nametables and coarse X are kept |
| PpuRegisters.WrapCoarseY | nes_py/cpp/ppu.cpp:178-187 | coarse Y 29 goes to 0 with the vertical nametable flipped; 31 goes to 0 without a flip; any other value steps by one |
| PpuRegisters.IncrementYCases | nes_py/cpp/ppu.cpp:172-190 | the dot-257 vertical increment, case by case: fine Y steps below 7, else it resets and coarse Y wraps as above; coarse X and the horizontal nametable never move |
| PpuRegisters.CopyHorizontal | nes_py/cpp/ppu.cpp:191-195 | the horizontal bits (mask 0x41F) come from temp and all others are kept |
| PpuRegisters.CopyVertical | nes_py/cpp/ppu.cpp:38-42 | the vertical bits (mask 0x7BE0) come from temp and all others are kept |
| PpuRegisters.WithNametable | nes_py/cpp/ppu.cpp:281-282 | temp bits 10-11 become ctrl & 3 and no other bit changes |
| PpuRegisters.ScrollFirstWrite | nes_py/cpp/ppu.cpp:336-340 | the first scroll write puts scroll >> 3 into coarse X and changes no other temp bit |
| PpuRegisters.ScrollSecondWrite | nes_py/cpp/ppu.cpp:342-347 | the second scroll write sets fine Y to scroll & 7 and coarse Y to scroll >> 3, touching only temp bits 5-9 and 12-14 |
| PpuRegisters.AddressHighWrite | nes_py/cpp/ppu.cpp:303-308 | the first address write sets the high byte to addr & 0x3F (so at most 0x3FFF) and keeps the low byte |
| PpuRegisters.AddressLowWrite | nes_py/cpp/ppu.cpp:310-314 | the second address write sets the low byte and keeps the high byte |
| PpuRegisters.TwoAddressWrites | nes_py/cpp/ppu.cpp:301-316 | whatever temp held, the two writes leave exactly ((hi & 0x3F) << 8) \| lo, which is at most 0x3FFF |
| PpuRegisters.TwoScrollWrites | nes_py/cpp/ppu.cpp:335-348 | the two scroll writes set coarse X, coarse Y and fine Y from the two bytes and keep the nametable bits and bit 15 |
| PpuRegisters.StatusByte | nes_py/cpp/ppu.cpp:294 | bit 6 is the sprite-zero flag, bit 7 the vertical-blank flag, and bits 0-5 are zero |
| PpuRegisters.DecodeControl | nes_py/cpp/ppu.cpp:274-277 | the address increment decoded from PPUCTRL is always 1 or 32 |
| PpuRegisters.ControlRoundTrip | nes_py/cpp/ppu.cpp:269-278 | decoding PPUCTRL keeps bits 2-5 and 7 and nothing else; encoding then decoding is the identity |
| PpuRegisters.MaskRoundTrip | nes_py/cpp/ppu.cpp:285-291 | decoding PPUMASK keeps bits 0-4 and nothing else; encoding then decoding is the identity |
| PpuTiming.SkippedDot | nes_py/cpp/ppu.cpp:46 | the pre-render line is one dot shorter iff the frame is odd and both layers are shown |
| PpuTiming.Step | nes_py/cpp/ppu.cpp:28-261 | one call keeps the phase invariants; the phase stays or moves to its successor, only at a line end and to dot 1; the frame flag flips iff VerticalBlank passes to PreRender; otherwise only the dot advances |
| PpuTiming.StepAdvancesPosition | nes_py/cpp/ppu.cpp:28-261 | each call moves one position along the frame, and the call at the last position starts the next frame with the flag flipped |
| PpuTiming.PositionDeterminesState | nes_py/cpp/ppu.cpp:28-261 | two states of one frame at the same position are equal |
| PpuTiming.FrameClock | nes_py/cpp/ppu.cpp:28-261 | k calls after a frame start the machine is in the same frame at position k |
| PpuTiming.FrameLengthExact | nes_py/cpp/ppu.cpp:28-261 | a frame takes 89080 calls, or 89079 on an odd frame with rendering on, and ends at the next frame start |
| PpuTiming.FlagFlipsOncePerFrame | nes_py/cpp/ppu.cpp:248-252 | strictly inside a frame the frame flag has not flipped and no frame start is revisited |
| PpuTiming.VblankDotOncePerFrame | nes_py/cpp/ppu.cpp:238-241 | the vertical-blank dot (scanline 241, dot 1) is reached exactly once per frame, at a fixed position |
| PpuTiming.RunAdd | nes_py/cpp/ppu.cpp:28-261 | a+b calls equal a calls followed by b calls |
| PpuTiming.ResetReachesFrameStart | nes_py/cpp/ppu.cpp:11-26 | the reset counters satisfy the phase invariants, and one call reaches dot 1 of an even frame |
| PpuTiming.ResetScenario | nes_py/cpp/ppu.cpp:11-26 | 341 × 262 calls after reset with rendering off the machine is back in pre-render on scanline 0, in an odd frame |
| PpuPixel.TileAddress | nes_py/cpp/ppu.cpp:65 | the nametable address is in 0x2000-0x2FFF and carries the low 12 bits of the VRAM address |
| PpuPixel.BackgroundPatternAddress | nes_py/cpp/ppu.cpp:72-74 | the pattern address is page : tile : plane 0 : fine Y |
| PpuPixel.AttributeAddress | nes_py/cpp/ppu.cpp:85-86 | the attribute address is 0x23C0 plus the nametable bits and the 4×4-tile block given by coarse Y and coarse X divided by 4 |
| PpuPixel.AttributeShift | nes_py/cpp/ppu.cpp:88 | the attribute field is selected by bit 1 of coarse Y (shift 4) and bit 1 of coarse X (shift 2) |
| PpuPixel.FineXAt | nes_py/cpp/ppu.cpp:61 | the column within the tile is in 0..7 |
| PpuPixel.BackgroundPixel | nes_py/cpp/ppu.cpp:60-91 | the background index is below 16; it is opaque iff its two pattern bits are not both 0; it is transparent 0 in the hidden left edge |
| PpuPixel.BackgroundPixelPlanes | nes_py/cpp/ppu.cpp:62-90 | outside the hidden left edge, bit 0 of the background index is the low-plane bit at 7 - tile column of the tile's pattern row, bit 1 the high-plane bit 8 bytes on, and bits 2-3 the attribute byte's field for the block quadrant |
| PpuPixel.ColumnBit | nes_py/cpp/ppu.cpp:76-78 | `7 ^ x_fine` is 7 minus the tile column, so the leftmost column is the pattern byte's bit 7 |
| PpuPixel.TruncRem | nes_py/cpp/ppu.cpp:120 | C++'s truncating remainder: it differs from the dividend by a multiple of m, is smaller than m in magnitude, and is never of the opposite sign to the dividend |
| PpuPixel.TruncRemSmall | nes_py/cpp/ppu.cpp:120 | the remainder of a value already inside the sprite height is the value |
| PpuPixel.XorLow | nes_py/cpp/ppu.cpp:125 | C++ int XOR with a 4-bit mask changes only the low four bits |
| PpuPixel.XorLowFlips | nes_py/cpp/ppu.cpp:124-125 | inside the sprite height, XOR with height - 1 mirrors the row |
| PpuPixel.SpriteTop | nes_py/cpp/ppu.cpp:114 | a sprite's first line is stored Y + 1 in a byte, so Y = 255 wraps to line 0 |
| PpuPixel.SpriteRow | nes_py/cpp/ppu.cpp:118-125 | the fetched row is in -16..15 whatever the sprite's Y |
| PpuPixel.SpriteRowOnSprite | nes_py/cpp/ppu.cpp:118-125 | on a line the sprite spans, the row is the distance from its top, counted from the bottom when flipped vertically |
| PpuPixel.RowWord | nes_py/cpp/ppu.cpp:130 | the row's 16-bit two's-complement image (row mod 2^16); a non-negative row keeps its value |
| PpuPixel.LineZeroNegativeRow | nes_py/cpp/ppu.cpp:114-130 | an 8×16 sprite with stored Y 236 is on scanline 239, whose end-of-line selection is the list scanline 0 draws; on scanline 0 it is fetched at row -13, address word 0xFFF3 |
| PpuPixel.ShortPageField | nes_py/cpp/ppu.cpp:129-132 | an 8×8 sprite address has the sprite page in bit 12 |
| PpuPixel.ShortTileField | nes_py/cpp/ppu.cpp:130 | an 8×8 sprite address has the tile in bits 4-11 |
| PpuPixel.ShortRowField | nes_py/cpp/ppu.cpp:130 | an 8×8 sprite address has the row in bits 0-3 |
| PpuPixel.ShortSpriteFields | nes_py/cpp/ppu.cpp:129-132 | an 8×8 sprite address is page : tile : row |
| PpuPixel.LongSpriteFields | nes_py/cpp/ppu.cpp:134-139 | an 8×16 sprite address takes its page from tile bit 0 and its tile pair from tile bits 1-7; rows 8-15 come from the second tile |
| PpuPixel.SpritePatternAddressOnSprite | nes_py/cpp/ppu.cpp:118-139 | on a line the sprite spans, its pattern address selects its tile, its page and its flipped or unflipped row |
| PpuPixel.SpriteColumnShift | nes_py/cpp/ppu.cpp:120-123 | the bit to fetch is 7 - column, or the column itself when the sprite is mirrored horizontally |
| PpuPixel.SpritePattern | nes_py/cpp/ppu.cpp:141-142 | the sprite's two pattern bits form a value below 4 |
| PpuPixel.SpritePatternPlanes | nes_py/cpp/ppu.cpp:130-142 | bit 0 of the sprite's pattern value is the low-plane bit at the sprite's column bit of its pattern address, and bit 1 the high-plane bit 8 bytes on |
| PpuPixel.OpaqueSpritePixel | nes_py/cpp/ppu.cpp:149-152 | a visible sprite pixel uses a sprite palette (bit 4) numbered by attribute bits 0-1; it is in front iff attribute bit 5 is clear; it is sprite zero iff the index is 0 |
| PpuPixel.SpriteScan | nes_py/cpp/ppu.cpp:107-160 | a non-zero colour is opaque and in the sprite palette; colour 0 is neither in front nor sprite zero; a non-opaque pixel has colour 0 |
| PpuPixel.SpriteScanFirstHit | nes_py/cpp/ppu.cpp:107-160 | the first sprite in the list with a visible pixel at the column decides the sprite pixel |
| PpuPixel.SpriteScanNoHit | nes_py/cpp/ppu.cpp:144-147 | with no visible sprite pixel the colour is 0; the opaque flag survives only if no sprite covers the column |
| PpuPixel.Multiplex | nes_py/cpp/ppu.cpp:162-167 | a sprite shows over a transparent background or when in front; an opaque background shows otherwise; where neither is opaque the index is 0; the index is below 32 |
| PpuPixel.SelectSpritesMembers | nes_py/cpp/ppu.cpp:205-219 | every rebuilt entry is a sprite index from cursor/4 up to 63 whose Y puts it on the line |
| PpuPixel.SelectSpritesIncreasing | nes_py/cpp/ppu.cpp:212-218 | the rebuilt list is strictly increasing, so no entry repeats |
| PpuPixel.SelectSpritesLength | nes_py/cpp/ppu.cpp:214-217 | the list is as long as the number of sprites on the line, capped at eight |
| PpuPixel.SelectSpritesExact | nes_py/cpp/ppu.cpp:212-219 | an index is in the list iff it is on the line, not before the cursor, and fewer than eight sprites on the line precede it |
| PpuPixel.SelectedSpriteRowInRange | nes_py/cpp/ppu.cpp:114-120 | a sprite selected on line s shows an in-range row on line s + 1 |
| Ppu.DotBackground | nes_py/cpp/ppu.cpp:60-91 | with the background hidden the background is transparent 0 |
| Ppu.ZeroHit | nes_py/cpp/ppu.cpp:155-156 | a sprite-zero hit needs both layers shown, both opaque, and the column outside any hidden edge |
| Ppu.DotPaletteIndex | nes_py/cpp/ppu.cpp:162-169 | the palette index of a dot is below 32 |
| Ppu.SpritesAfterDotValid | nes_py/cpp/ppu.cpp:205-219 | the sprite list a dot leaves has at most eight entries, each a sprite index below 64 |
| Ppu.ScrollFrozenWhenBackgroundOff | nes_py/cpp/ppu.cpp:33-195 | with the background hidden the VRAM address never moves |
| Ppu.CoarseXAdvancesAtTileEnd | nes_py/cpp/ppu.cpp:61-104 | with the background shown, at a pixel dot coarse X advances iff the tile column ends there, and otherwise the address is kept |
| Ppu.HorizontalReload | nes_py/cpp/ppu.cpp:191-195 | at dot 258 while rendering, the horizontal bits are reloaded from temp and the others are kept |
| Ppu.VerticalReload | nes_py/cpp/ppu.cpp:38-42 | at pre-render dots 281-304 while rendering, the vertical bits are reloaded from temp and the others are kept |
| Ppu.VblankEdges | nes_py/cpp/ppu.cpp:238-239 | vertical blank rises only at scanline 241 dot 1 and falls only at pre-render dot 1 |
| Ppu.SpriteZeroEdges | nes_py/cpp/ppu.cpp:155-156 | the sprite-zero flag rises only at a pixel dot where sprite zero is over an opaque background, and falls only at pre-render dot 1 |
| Ppu.SpriteZeroHitSets | nes_py/cpp/ppu.cpp:155-156 | at a pixel dot with both layers shown, where sprite 0 is the first listed sprite visible there and the background is opaque, the sprite-zero flag is set |
| Ppu.DotSpriteIsFirstHit | nes_py/cpp/ppu.cpp:107-160 | the sprite layer at a dot is the pixel of the first listed sprite visible there |
| Ppu.DotWithoutSprites | nes_py/cpp/ppu.cpp:162-167 | with no visible sprite the dot shows the background, or 0 when the background is transparent, and there is no sprite-zero hit |
| Ppu.PreRenderDotRegisters | nes_py/cpp/ppu.cpp:30-50 | in pre-render the sprite-zero flag drops at dot 1 and is kept otherwise; the sprite list is kept |
| Ppu.BlankDotRegisters | nes_py/cpp/ppu.cpp:229-255 | after the visible lines the VRAM address, the sprite-zero flag and the sprite list are kept; in PostRender the vertical-blank flag is kept too |
| Ppu.SelectSpritesStep | nes_py/cpp/ppu.cpp:212-218 | one step of the rebuild loop appends a sprite on the line and uses one slot, and filling the eighth slot completes the list |
| Ppu.SelectSpritesDone | nes_py/cpp/ppu.cpp:212 | past sprite 63 nothing is left to add |
| Ppu.PPU.constructor | nes_py/cpp/ppu.cpp:11-26 | a new PPU has reset's counters and registers; the sprite-zero flag is clear, no edge is hidden and the read buffer is 0; every OAM byte and every frame pixel is 0; no callback has fired |
| Ppu.PPU.Reset | nes_py/cpp/ppu.cpp:11-26 | reset puts the counters at pre-render dot 0 of an even frame; the control register becomes that of byte 0; greyscale goes off and both layers are shown; the vertical-blank flag, both addresses, fine X, the OAM cursor and the sprite list are cleared and the latch is set; the sprite-zero flag is kept; a PPU whose memories have their sizes is valid afterwards |
| Ppu.PPU.Cycle | nes_py/cpp/ppu.cpp:28-261 | one dot: the counters take one Step; the address, both flags and the sprite list change as the per-dot functions say and no other register changes; a pixel dot writes exactly its own pixel; the callback fires at the vertical-blank dot iff interrupts are enabled |
| Ppu.PPU.PostRenderDot | nes_py/cpp/ppu.cpp:229-236 | the idle line advances the counters as Step does |
| Ppu.PPU.PreRenderDot | nes_py/cpp/ppu.cpp:30-50 | pre-render: flags drop at dot 1, scroll copies as ScrollAfterDot, counters as Step |
| Ppu.PPU.VerticalBlankDot | nes_py/cpp/ppu.cpp:237-255 | vertical blank: the flag and the callback at the vertical-blank dot, counters as Step |
| Ppu.PPU.RenderDot | nes_py/cpp/ppu.cpp:51-228 | a Render dot updates the address, the sprite-zero flag, the sprite list and the one pixel as the per-dot functions say |
| Ppu.PPU.RenderScroll | nes_py/cpp/ppu.cpp:172-195 | after the visible dots, the address changes as ScrollAfterDot says |
| Ppu.PPU.EndRenderLine | nes_py/cpp/ppu.cpp:200-226 | at the line end the sprite list is rebuilt (at most eight valid indices) and the counters advance as Step |
| Ppu.PPU.PixelDotWork | nes_py/cpp/ppu.cpp:52-170 | a pixel dot writes DotColor at (scanline, dot - 1) and nothing else of the frame; it steps coarse X and sets the sprite-zero flag as specified |
| Ppu.PPU.DoDMA | nes_py/cpp/ppu.cpp:263-267 | OAM becomes the page rotated to start at the cursor: every OAM byte is overwritten and page byte k lands at (cursor + k) mod 256 |
| Ppu.PPU.Control | nes_py/cpp/ppu.cpp:269-283 | the control flags are the decoded byte, and temp changes only in its nametable bits |
| Ppu.PPU.SetMask | nes_py/cpp/ppu.cpp:285-291 | the mask flags are the decoded byte |
| Ppu.PPU.GetStatus | nes_py/cpp/ppu.cpp:293-299 | it returns the status byte of the old flags, clears vertical blank, sets the latch and keeps the sprite-zero flag |
| Ppu.PPU.SetDataAddress | nes_py/cpp/ppu.cpp:301-316 | the latch flips; the first write sets the high byte of temp, and the second the low byte and copies temp to the current address |
| Ppu.PPU.GetData | nes_py/cpp/ppu.cpp:318-328 | the address steps by the increment; below 0x3F00 after the step the old buffer is returned and the fresh byte is buffered; otherwise the fresh byte is returned and the buffer kept |
| Ppu.PPU.SetData | nes_py/cpp/ppu.cpp:330-333 | the byte is written at the old address and the address steps by the increment |
| Ppu.PPU.SetScroll | nes_py/cpp/ppu.cpp:335-348 | the latch flips; the first write sets coarse X and fine X, and the second fine Y and coarse Y |
| Ppu.PPU.SetAddressAfterStatus | nes_py/cpp/ppu.cpp:293-316 | after a status read the two address writes leave the current address at exactly ((hi & 0x3F) << 8) \| lo, at most 0x3FFF, with the latch ready for a new first write |
| Ppu.PPU.SetScrollAfterStatus | nes_py/cpp/ppu.cpp:335-348 | after a status read the two scroll writes set fine X, coarse X, coarse Y and fine Y and keep the nametable bits |
| Ppu.PPU.ReadTwice | nes_py/cpp/ppu.cpp:318-328 | below the palettes, the second of two reads returns the byte at the address the first one used |
| Ppu.PPU.StatusTwice | nes_py/cpp/ppu.cpp:293-299 | a second status read in a row has bit 7 clear and the same sprite-zero bit |
| Ppu.DotLayers | nes_py/cpp/ppu.cpp:52-160 | the background and sprite layers of a dot are DotBackground and DotSprite; their multiplexed index and sprite-zero test are those of the reference functions |
| Ppu.ScanSprites | nes_py/cpp/ppu.cpp:107-160 | the loop over the sprite list computes SpriteScan |
| Ppu.EvaluateSprites | nes_py/cpp/ppu.cpp:205-219 | the rebuild loop builds exactly SelectSprites from the cursor / 4, with range 16 for 8×16 sprites and 8 otherwise |
| Ppu.DmaLayout | nes_py/cpp/ppu.cpp:264-266 | the two copies of the DMA together give the rotated page |
| Ppu.DmaImage | nes_py/cpp/ppu.cpp:263-267 | the rotated page has 256 bytes, byte k at (c + k) mod 256, and equals the page when c is 0 |
| MapperCnrom.MapperCNROM.constructor | nes_py/cpp/mappers/mapper_CNROM.cpp:4-10 | the mapper holds the given ROM and bank mode |
| MapperCnrom.MapperCNROM.MaskFolds | nes_py/cpp/mappers/mapper_CNROM.cpp:9 | the 16-bit difference from 0x8000 is the integer one, and masking it to 14 bits folds 0xC000-0xFFFF onto the first bank |
| MapperCnrom.MapperCNROM.ReadPRG | nes_py/cpp/mappers/mapper_CNROM.cpp:4-10 | the byte read is the ROM at the resolved offset, which is addr - 0x8000 with two banks |
| MapperCnrom.MapperCNROM.GetPagePtr | nes_py/cpp/mappers/mapper_CNROM.cpp:12-18 | the page offset is the resolved offset, inside the ROM, below 0x4000 in one-bank mode and below 0x8000 always |
| MapperCnrom.MapperCNROM.WriteCHR | nes_py/cpp/mappers/mapper_CNROM.cpp:20-22 | a CHR write is refused: the mapper's state is unchanged |
| MapperCnrom.MapperCNROM.PagePtrReadsLikeReadPRG | nes_py/cpp/mappers/mapper_CNROM.cpp:4-18 | the page pointer starts at exactly the byte readPRG reads |
| MapperCnrom.MapperCNROM.OneBankMirrored | nes_py/cpp/mappers/mapper_CNROM.cpp:8-9 | in one-bank mode the upper 16 KiB of the window mirror the lower |
| MapperCnrom.MapperCNROM.OneBankCoversWindow | nes_py/cpp/mappers/mapper_CNROM.cpp:9 | a one-bank ROM of 16 KiB resolves every address from 0x8000 |
| MapperCnrom.MapperCNROM.TwoBanksCoverWindow | nes_py/cpp/mappers/mapper_CNROM.cpp:6 | a two-bank ROM of 32 KiB resolves every address from 0x8000 |

## Left out

- `nes_py/app/play_random.py`: host training-loop glue with no emulator logic.
- `nes_py/cpp/include/controller.hpp`: its shift-register logic lives in a source file that is not part of this model.
- PictureBus internals are not modelled: nametable mirroring, palette RAM, and the routing of pattern reads through the mapper. Reads are arbitrary fixed functions of the bytes written so far. The bus is passed as a value, and `SetData` returns the bus after its write instead of updating a shared object.
- The contents of the `colors[]` system palette: a constructor parameter.
- `ppu.hpp` and `mapper_CNROM.hpp` are not part of this model. Ppu.PPU.constructor therefore fixes the values `reset` (ppu.cpp:11-26) does not set. The sprite-zero flag is clear, both edge masks are off, the read buffer is 0, and OAM and the frame are zeroed. The source's member initialisers may differ. The mapper constructor takes the bank mode as given; how `m_oneBank` is derived from the cartridge is not modelled.
- `LOG` output, including the unreachable `default:` branch of `cycle`: the phase is a four-valued datatype, so that branch does not exist in the model.
- The vertical-blank callback: a ghost counter of how often it fires, not a call into the CPU.
- The log message of `writeCHR`: only its effect, that nothing changes, is modelled.
- Ppu.PPU.Cycle: states the new register file field by field. Each changed field is tied to its per-dot function, and the `modifies` clause keeps every other register.
- Ppu.PPU.PixelDotWork: computes both layers from a snapshot of OAM and the registers before it updates any field. The source interleaves the coarse-X step with the sprite fetch, but neither reads the other's result.
- Ppu.PPU.Cycle: the final `++m_cycle` is done at the end of each phase method rather than once after the switch. This has the same effect.
- The `std::memcpy` pointer semantics of `doDMA`: the page is a sequence of at least 256 bytes.
