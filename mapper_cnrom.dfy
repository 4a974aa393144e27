/** The CNROM cartridge mapper as far as the PRG side goes: CPU addresses
    0x8000-0xFFFF resolve into the PRG ROM, directly for a 32 KiB ROM and
    mirrored every 16 KiB when the cartridge has a single bank.  CHR writes
    are refused (the ROM is read-only). */
module MapperCnrom {
  import opened NesTypes

  class MapperCNROM {
    /** The cartridge's PRG ROM. */
    const rom: seq<Byte>
    /** m_oneBank: the ROM is one 16 KiB bank, mirrored over the window. */
    const oneBank: bool

    constructor (rom: seq<Byte>, oneBank: bool)
      ensures this.rom == rom && this.oneBank == oneBank
    {
      this.rom := rom;
      this.oneBank := oneBank;
    }

    /** The ROM offset an address in the PRG window stands for, in plain
        integer arithmetic: the distance from 0x8000, and in one-bank mode
        the upper 16 KiB (from 0xC000) folded onto the lower. */
    function Offset(addr: Address): int
      requires 0x8000 <= addr
    {
      if oneBank && 0xC000 <= addr then addr as int - 0xC000 else addr as int - 0x8000
    }

    /** The addresses readPRG and getPagePtr are defined on: in the PRG
        window and resolving inside the ROM. */
    predicate Resolves(addr: Address) {
      0x8000 <= addr && Offset(addr) < |rom|
    }

    /** Masking the distance from 0x8000 to 14 bits folds the upper half of
        the window onto the lower; the 16-bit differences are the integer ones. */
    static lemma MaskFolds(addr: Address)
      requires 0x8000 <= addr
      ensures (addr - 0x8000) as int == addr as int - 0x8000
      ensures 0xC000 <= addr ==> ((addr - 0x8000) & 0x3FFF) as int == addr as int - 0xC000
      ensures addr < 0xC000 ==> ((addr - 0x8000) & 0x3FFF) as int == addr as int - 0x8000
      ensures ((addr - 0x8000) & 0x3FFF) as int < 0x4000
    {
      assert (addr - 0x8000) & 0x3FFF < 0x4000;
      if 0xC000 <= addr {
        assert (addr - 0x8000) & 0x3FFF == addr - 0xC000;
        assert (addr - 0xC000) as int == addr as int - 0xC000;
      } else {
        assert (addr - 0x8000) & 0x3FFF == addr - 0x8000;
      }
    }

    /** MapperCNROM::readPRG. */
    function ReadPRG(addr: Address): (b: Byte)
      requires Resolves(addr)
      ensures b == rom[Offset(addr)]
      ensures !oneBank ==> b == rom[addr as int - 0x8000]
    {
      MaskFolds(addr);
      if !oneBank then rom[(addr - 0x8000) as int]
      else rom[((addr - 0x8000) & 0x3FFF) as int]
    }

    /** MapperCNROM::getPagePtr: the pointer into the ROM, as an offset. */
    function GetPagePtr(addr: Address): (offset: nat)
      requires Resolves(addr)
      ensures offset == Offset(addr) && offset < |rom|
      ensures oneBank ==> offset < 0x4000
      ensures offset < 0x8000
    {
      MaskFolds(addr);
      if !oneBank then (addr - 0x8000) as int
      else ((addr - 0x8000) & 0x3FFF) as int
    }

    /** The page getPagePtr returns starts at exactly the byte readPRG reads. */
    lemma PagePtrReadsLikeReadPRG(addr: Address)
      requires Resolves(addr)
      ensures rom[GetPagePtr(addr)] == ReadPRG(addr)
    {
    }

    /** In one-bank mode the upper 16 KiB of the window mirror the lower. */
    lemma OneBankMirrored(addr: Address)
      requires oneBank && 0x8000 <= addr < 0xC000 && Resolves(addr)
      ensures Resolves(addr + 0x4000)
      ensures ReadPRG(addr + 0x4000) == ReadPRG(addr)
    {
    }

    /** A 16 KiB ROM in one-bank mode resolves every address of the window. */
    lemma OneBankCoversWindow(addr: Address)
      requires oneBank && |rom| >= 0x4000 && 0x8000 <= addr
      ensures Resolves(addr)
    {
    }

    /** A 32 KiB ROM in two-bank mode resolves every address of the window. */
    lemma TwoBanksCoverWindow(addr: Address)
      requires !oneBank && |rom| >= 0x8000 && 0x8000 <= addr
      ensures Resolves(addr)
    {
    }

    /** MapperCNROM::writeCHR: CHR memory is ROM, so the write is dropped
        (the source only logs it).  With no modifies clause the method can
        change no state. */
    method WriteCHR(addr: Address, value: Byte)
      ensures unchanged(this)
    {
    }
  }
}
