/** Shared vocabulary of the emulator core: the integer aliases, the error
    type every fallible operation returns, and the byte-pair combiner. */
module Gameboy {

  /** An unsigned byte (`u8`). */
  type u8 = bv8

  /** An unsigned 16-bit word (`u16`). */
  type u16 = bv16

  /** A 16-bit memory address. Kept as an integer range so that address
      arithmetic cannot silently wrap: an overflowing `+ 1` is a caller
      obligation instead. */
  type Address = a: int | 0 <= a <= 0xFFFF

  /** A 3-bit unsigned constant, carried in a byte. */
  type Imm3 = u8

  /** An 8-bit immediate operand. */
  type Imm8 = u8

  /** A 16-bit immediate operand. */
  type Imm16 = u16

  /** An 8-bit signed offset (`i8`). */
  type Offset8 = x: int | -128 <= x <= 127

  /** A count of machine cycles. */
  type Cycles = u16

  datatype Option<T> = None | Some(value: T)

  /** The categories of emulator errors. */
  datatype GameboyErrorKind =
    | CartridgeTooSmall(size: nat)
    | MemoryLoadOutOfBounds(start: Address, size: nat)
    | UnknownOpcodePrefix(prefix: u8)
    | UnknownAluOpcodePrefix(aluPrefix: u8)
    | Unknown(description: string)

  datatype GameboyError = GameboyError(kind: GameboyErrorKind)

  /** The result type of every fallible operation of the core. */
  datatype GameboyResult<T> = Ok(value: T) | Err(error: GameboyError)

  /** Builds an error of the given kind. */
  function NewError(kind: GameboyErrorKind): (e: GameboyError)
    ensures e.kind == kind
  {
    GameboyError(kind)
  }

  /** Combines two bytes into a word, `msb` being the high byte. */
  function MakeU16(msb: u8, lsb: u8): (r: u16)
    ensures (r >> 8) as u8 == msb
    ensures (r & 0xFF) as u8 == lsb
    ensures r == (msb as u16) * 256 + (lsb as u16)
  {
    ((msb as u16) << 8) | (lsb as u16)
  }

  /** Distinct byte pairs give distinct words. */
  lemma MakeU16Injective(msb1: u8, lsb1: u8, msb2: u8, lsb2: u8)
    requires MakeU16(msb1, lsb1) == MakeU16(msb2, lsb2)
    ensures msb1 == msb2 && lsb1 == lsb2
  {
  }
}
