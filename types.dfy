/** Fixed-width machine types of the emulator. */
module NesTypes {
  /** NES_Byte: 8 bits. */
  type Byte = bv8
  /** NES_Address: 16 bits, arithmetic wraps. */
  type Address = bv16
  /** NES_Pixel: one resolved output colour. */
  type Pixel = bv32
}

/** The PictureBus the PPU reads and writes through.  Its routing
    (pattern tables through the mapper, nametable mirroring, palette RAM)
    is not part of this model: a read is an arbitrary but fixed function of
    everything written so far, and a write records the byte at its address.
    The bus is passed around as a value; a write yields the bus after it. */
module PictureBusModel {
  import opened NesTypes

  datatype PictureBus = PictureBus(
    /** The last byte written at each address. */
    memory: map<Address, Byte>,
    /** PictureBus::read, as a function of the written bytes. */
    load: (map<Address, Byte>, Address) -> Byte,
    /** PictureBus::read_palette, as a function of the written bytes. */
    loadPalette: (map<Address, Byte>, Byte) -> Byte)
  {
    function Read(address: Address): Byte {
      load(memory, address)
    }

    function ReadPalette(index: Byte): Byte {
      loadPalette(memory, index)
    }

    /** PictureBus::write: the byte is recorded and the routing is unchanged. */
    function Write(address: Address, value: Byte): PictureBus {
      this.(memory := memory[address := value])
    }
  }
}
