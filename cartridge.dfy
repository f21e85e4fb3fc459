/** Cartridges. Only the ROM-only kind exists in the core: its image is a
    byte vector fixed at construction, it answers reads in the ROM window
    0x0000-0x7FFF and ignores every write. */
module Cartridge {
  import opened Gameboy

  /** Upper end of the cartridge ROM window. */
  const RomEnd: Address := 0x7FFF

  class RomOnly {
    var data: seq<u8>

    /** Wraps the given image. */
    constructor (data: seq<u8>)
      ensures this.data == data
    {
      this.data := data;
    }

    /** A read of `address` is defined: it lies in the ROM window and inside
        the image (any other read aborts). */
    predicate CanRead(address: Address)
      reads this
    {
      address <= RomEnd && address < |data|
    }

    /** The byte of the image at the same offset as the address. */
    function ReadByte(address: Address): (r: u8)
      reads this
      requires CanRead(address)
      ensures r == data[address]
    {
      data[address]
    }

    /** There is no writable memory: the image never changes. */
    method WriteByte(address: Address, value: u8)
      modifies this
      ensures data == old(data)
    {
    }

    /** The word at `address`, the byte at `address` being the high byte. */
    function ReadWord(address: Address): (r: u16)
      reads this
      requires address < RomEnd && CanRead(address) && CanRead(address + 1)
      ensures r == MakeU16(data[address], data[address + 1])
    {
      MakeU16(ReadByte(address), ReadByte(address + 1))
    }

    /** Takes the cartridge by shared reference and does nothing. */
    method WriteWord(address: Address, value: u16)
      ensures unchanged(this)
    {
    }
  }
}
