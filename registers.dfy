/** Bit-field arithmetic on the PPU's 15-bit VRAM address registers
    (m_dataAddress, the current address, and m_tempAddress, the staging
    address), laid out as
      bits 0-4   coarse X        bits 5-9   coarse Y
      bits 10-11 nametable       bits 12-14 fine Y
    and the byte-sized port encodings built on them. */
module PpuRegisters {
  import opened NesTypes

  function CoarseX(v: Address): Address { v & 0x1F }
  function CoarseY(v: Address): Address { (v >> 5) & 0x1F }
  function FineY(v: Address): Address { (v >> 12) & 0x7 }
  /** Bit 10 selects the horizontal nametable, bit 11 the vertical one. */
  function NametableX(v: Address): bool { v & 0x400 != 0 }
  function NametableY(v: Address): bool { v & 0x800 != 0 }

  /** The coarse-X increment done every eighth visible dot. */
  function IncrementCoarseX(v: Address): (r: Address)
    ensures CoarseX(r) as int == (CoarseX(v) as int + 1) % 32
    ensures NametableX(r) != NametableX(v) <==> CoarseX(v) == 31
    ensures r & !0x41F == v & !0x41F
  {
    if v & 0x001F == 31 then (v & !0x001F) ^ 0x0400
    else v + 1
  }

  /** Fine Y below 7 steps up by one. */
  function IncrementFineY(v: Address): (r: Address)
    requires FineY(v) != 7
    ensures FineY(r) == FineY(v) + 1 && r & !0x7000 == v & !0x7000
  {
    v + 0x1000
  }

  /** Fine Y back to 0; nothing else moves. */
  function ClearFineY(v: Address): (r: Address)
    ensures FineY(r) == 0 && CoarseY(r) == CoarseY(v) && NametableY(r) == NametableY(v)
    ensures r & 0x841F == v & 0x841F
  {
    v & !0x7000
  }

  /** The vertical nametable switched; nothing else moves. */
  function SwitchNametableY(v: Address): (r: Address)
    ensures NametableY(r) != NametableY(v) && FineY(r) == FineY(v) && CoarseY(r) == CoarseY(v)
    ensures r & 0x841F == v & 0x841F
  {
    v ^ 0x0800
  }

  /** v with coarse Y replaced by y; nothing else moves. */
  function WithCoarseY(v: Address, y: Address): (r: Address)
    requires y < 32
    ensures CoarseY(r) == y && FineY(r) == FineY(v) && NametableY(r) == NametableY(v)
    ensures r & 0x841F == v & 0x841F
  {
    (v & !0x03E0) | (y << 5)
  }

  /** The coarse-Y step once fine Y has wrapped: 29 wraps to 0 and switches
      the vertical nametable, 31 wraps to 0 without switching (the quirk kept
      from the hardware), anything else steps up by one. */
  function WrapCoarseY(v: Address): (r: Address)
    ensures CoarseY(v) == 29 ==> CoarseY(r) == 0 && NametableY(r) != NametableY(v)
    ensures CoarseY(v) == 31 ==> CoarseY(r) == 0 && NametableY(r) == NametableY(v)
    ensures CoarseY(v) != 29 && CoarseY(v) != 31 ==> CoarseY(r) == CoarseY(v) + 1 && NametableY(r) == NametableY(v)
    ensures FineY(r) == FineY(v) && r & 0x841F == v & 0x841F
  {
    var y := CoarseY(v);
    if y == 29 then WithCoarseY(SwitchNametableY(v), 0)
    else if y == 31 then WithCoarseY(v, 0)
    else WithCoarseY(v, y + 1)
  }

  /** The end-of-line vertical increment. */
  function IncrementY(v: Address): Address {
    if FineY(v) != 7 then IncrementFineY(v)
    else WrapCoarseY(ClearFineY(v))
  }

  /** Fine Y carries into coarse Y; coarse Y 29 wraps to 0 and switches the
      vertical nametable, coarse Y 31 wraps to 0 without switching, any other
      coarse Y steps up.  Coarse X, the horizontal nametable and bit 15 never
      move. */
  lemma IncrementYCases(v: Address)
    ensures var r := IncrementY(v);
            && (FineY(v) != 7 ==> FineY(r) == FineY(v) + 1 && r & !0x7000 == v & !0x7000)
            && (FineY(v) == 7 ==> FineY(r) == 0 && r & 0x841F == v & 0x841F)
            && (FineY(v) == 7 && CoarseY(v) == 29 ==> CoarseY(r) == 0 && NametableY(r) != NametableY(v))
            && (FineY(v) == 7 && CoarseY(v) == 31 ==> CoarseY(r) == 0 && NametableY(r) == NametableY(v))
            && (FineY(v) == 7 && CoarseY(v) != 29 && CoarseY(v) != 31 ==>
                  CoarseY(r) == CoarseY(v) + 1 && NametableY(r) == NametableY(v))
  {
    if FineY(v) == 7 {
      assert IncrementY(v) == WrapCoarseY(ClearFineY(v));
    }
  }

  /** Copy of the horizontal bits (coarse X, horizontal nametable) from temp. */
  function CopyHorizontal(v: Address, temp: Address): (r: Address)
    ensures r & 0x41F == temp & 0x41F
    ensures r & !0x41F == v & !0x41F
  {
    (v & !0x41F) | (temp & 0x41F)
  }

  /** Copy of the vertical bits (coarse Y, vertical nametable, fine Y) from temp. */
  function CopyVertical(v: Address, temp: Address): (r: Address)
    ensures r & 0x7BE0 == temp & 0x7BE0
    ensures r & !0x7BE0 == v & !0x7BE0
  {
    (v & !0x7BE0) | (temp & 0x7BE0)
  }

  /** The nametable bits a control write puts into temp. */
  function WithNametable(temp: Address, ctrl: Byte): (r: Address)
    ensures (r >> 10) & 3 == (ctrl & 3) as Address
    ensures r & !0xC00 == temp & !0xC00
  {
    (temp & !0xC00) | (((ctrl & 0x3) as Address) << 10)
  }

  /** First scroll write: coarse X into temp (fine X goes to its own register). */
  function ScrollFirstWrite(temp: Address, scroll: Byte): (r: Address)
    ensures CoarseX(r) == (scroll >> 3) as Address
    ensures r & !0x1F == temp & !0x1F
  {
    (temp & !0x1F) | (((scroll >> 3) & 0x1F) as Address)
  }

  /** Second scroll write: fine Y and coarse Y into temp. */
  function ScrollSecondWrite(temp: Address, scroll: Byte): (r: Address)
    ensures FineY(r) == (scroll & 7) as Address
    ensures CoarseY(r) == (scroll >> 3) as Address
    ensures r & !0x73E0 == temp & !0x73E0
  {
    (temp & !0x73E0) | ((((scroll & 0x7) as Address) << 12) | (((scroll & 0xF8) as Address) << 2))
  }

  /** First address write: the high six bits; bits 14-15 are cleared. */
  function AddressHighWrite(temp: Address, addr: Byte): (r: Address)
    ensures r >> 8 == (addr & 0x3F) as Address
    ensures r & 0xFF == temp & 0xFF
    ensures r <= 0x3FFF
  {
    (temp & !0xFF00) | (((addr & 0x3F) as Address) << 8)
  }

  /** Second address write: the low byte. */
  function AddressLowWrite(temp: Address, addr: Byte): (r: Address)
    ensures r & 0xFF == addr as Address
    ensures r & 0xFF00 == temp & 0xFF00
  {
    (temp & !0xFF) | (addr as Address)
  }

  /** Whatever temp held before, the two writes leave exactly hi:lo with hi
      masked to six bits. */
  lemma TwoAddressWrites(temp: Address, hi: Byte, lo: Byte)
    ensures AddressLowWrite(AddressHighWrite(temp, hi), lo) == (((hi & 0x3F) as Address) << 8) | (lo as Address)
    ensures AddressLowWrite(AddressHighWrite(temp, hi), lo) <= 0x3FFF
  {
  }

  /** The two scroll writes set coarse X, coarse Y and fine Y and keep the
      nametable bits and bit 15 of temp. */
  lemma TwoScrollWrites(temp: Address, x: Byte, y: Byte)
    ensures var r := ScrollSecondWrite(ScrollFirstWrite(temp, x), y);
            && CoarseX(r) == (x >> 3) as Address
            && CoarseY(r) == (y >> 3) as Address
            && FineY(r) == (y & 7) as Address
            && r & 0x8C00 == temp & 0x8C00
  {
  }

  /** The status port byte: bit 6 sprite-zero hit, bit 7 vertical blank. */
  function StatusByte(sprZeroHit: bool, vblank: bool): (status: Byte)
    ensures status & 0x3F == 0
    ensures (status & 0x40 != 0) == sprZeroHit
    ensures (status & 0x80 != 0) == vblank
  {
    ((if sprZeroHit then 1 else 0) << 6) | ((if vblank then 1 else 0) << 7)
  }

  /** Which 4 KiB pattern table a layer uses (m_bgPage, m_sprPage). */
  datatype CharacterPage = Low | High

  function PageBit(p: CharacterPage): Address {
    if p == High then 1 else 0
  }

  /** PPUCTRL as the PPU keeps it: NMI enable (bit 7), 8x16 sprites (bit
      5), background and sprite pattern pages (bits 4 and 3) and the address
      increment (bit 2: 32, else 1).  Bits 0-1 go to temp; bit 6 is ignored. */
  datatype ControlRegister = ControlRegister(generateInterrupt: bool, longSprites: bool,
                                             bgPage: CharacterPage, sprPage: CharacterPage,
                                             dataAddrIncrement: Address)

  function PageOf(bit: bool): CharacterPage {
    if bit then High else Low
  }

  function DecodeControl(ctrl: Byte): (c: ControlRegister)
    ensures c.dataAddrIncrement == 1 || c.dataAddrIncrement == 32
  {
    ControlRegister(ctrl & 0x80 != 0, ctrl & 0x20 != 0, PageOf(ctrl & 0x10 != 0), PageOf(ctrl & 0x08 != 0),
                    if ctrl & 0x04 != 0 then 0x20 else 1)
  }

  /** The PPUCTRL bits a decoded control register stands for. */
  function EncodeControl(c: ControlRegister): Byte {
    (if c.generateInterrupt then 0x80 else 0) | (if c.longSprites then 0x20 else 0) |
    (if c.bgPage == High then 0x10 else 0) | (if c.sprPage == High then 0x08 else 0) |
    (if c.dataAddrIncrement == 0x20 then 0x04 else 0)
  }

  /** Decoding keeps bits 2-5 and 7 of the written byte and nothing else. */
  lemma ControlRoundTrip(ctrl: Byte, c: ControlRegister)
    requires c.dataAddrIncrement == 1 || c.dataAddrIncrement == 32
    ensures EncodeControl(DecodeControl(ctrl)) == ctrl & 0xBC
    ensures DecodeControl(EncodeControl(c)) == c
  {
  }

  /** PPUMASK as the PPU keeps it: greyscale (bit 0), left-edge clipping of
      the background and of sprites (bits 1 and 2 clear), background and
      sprites shown (bits 3 and 4).  Bits 5-7 (colour emphasis) are ignored. */
  datatype MaskRegister = MaskRegister(greyscaleMode: bool, hideEdgeBackground: bool, hideEdgeSprites: bool,
                                       showBackground: bool, showSprites: bool)

  function DecodeMask(mask: Byte): MaskRegister {
    MaskRegister(mask & 0x01 != 0, mask & 0x02 == 0, mask & 0x04 == 0, mask & 0x08 != 0, mask & 0x10 != 0)
  }

  function EncodeMask(m: MaskRegister): Byte {
    (if m.greyscaleMode then 0x01 else 0) | (if m.hideEdgeBackground then 0 else 0x02) |
    (if m.hideEdgeSprites then 0 else 0x04) | (if m.showBackground then 0x08 else 0) |
    (if m.showSprites then 0x10 else 0)
  }

  /** Decoding keeps bits 0-4 of the written byte and nothing else. */
  lemma MaskRoundTrip(mask: Byte, m: MaskRegister)
    ensures EncodeMask(DecodeMask(mask)) == mask & 0x1F
    ensures DecodeMask(EncodeMask(m)) == m
  {
  }

  /** getData's delayed read: below the palette range the port returns the
      previous buffered byte. */
  predicate BufferedRead(address: Address) {
    address < 0x3F00
  }
}
