/** The 64 KiB memory map. Every access of the core goes through it: the
    cartridge answers for its ROM window and for cartridge RAM, work RAM is
    mirrored into the echo region, the unused block ignores writes, and the
    interrupt-flag register keeps its top three bits set. */
module MemoryMap {
  import opened Gameboy
  import opened Cartridge

  /** Number of addressable bytes. */
  const MemorySize: nat := 0x10000

  /** Address of the interrupt-flag register (IF). */
  const InterruptFlag: Address := 0xFF0F

  /** Bits of IF that always read as 1. */
  const IfFixedBits: u8 := 0xE0

  /** Addresses the cartridge answers: its ROM window and cartridge RAM. */
  predicate IsCartridgeAddress(a: Address) {
    a <= 0x7FFF || 0xA000 <= a <= 0xBFFF
  }

  /** Work RAM that has a copy in the echo region. */
  predicate IsWorkRam(a: Address) {
    0xC000 <= a <= 0xDDFF
  }

  /** The echo region, a mirror of 0xC000-0xDDFF. */
  predicate IsEcho(a: Address) {
    0xE000 <= a <= 0xFDFF
  }

  /** Addresses written together with a partner 0x2000 apart. */
  predicate IsMirrored(a: Address) {
    IsWorkRam(a) || IsEcho(a)
  }

  /** The unused block, where writes are ignored. */
  predicate IsUnused(a: Address) {
    0xFEA0 <= a <= 0xFEFF
  }

  /** Addresses stored as they are written: video RAM, 0xDE00-0xDFFF, OAM,
      the I/O block except IF, high RAM and the interrupt-enable byte. */
  predicate IsPlain(a: Address) {
    !IsCartridgeAddress(a) && !IsMirrored(a) && !IsUnused(a) && a != InterruptFlag
  }

  /** The address 0x2000 away that shares a byte with `a`. */
  function MirrorOf(a: Address): (m: Address)
    requires IsMirrored(a)
    ensures IsMirrored(m) && (IsWorkRam(a) <==> IsEcho(m))
    ensures m == a + 0x2000 || m == a - 0x2000
  {
    if IsWorkRam(a) then a + 0x2000 else a - 0x2000
  }

  /** The byte IF holds after `v` is written to it: the top three bits
      set, the low five bits taken from `v`. */
  function InterruptFlagValue(v: u8): (s: u8)
    ensures s & IfFixedBits == IfFixedBits
    ensures s & 0x1F == v & 0x1F
  {
    (v & !IfFixedBits) | IfFixedBits
  }

  /** Writing 0x0F to IF reads back 0xEF, writing 0x10 reads back 0xF0. */
  lemma InterruptFlagExamples()
    ensures InterruptFlagValue(0x0F) == 0xEF
    ensures InterruptFlagValue(0x10) == 0xF0
  {
  }

  /** Writing back what IF holds leaves it as it is. */
  lemma InterruptFlagIdempotent(v: u8)
    ensures InterruptFlagValue(InterruptFlagValue(v)) == InterruptFlagValue(v)
  {
  }

  /** What every write keeps true of the array: each work-RAM byte equals
      its echo, IF has its top bits set, the unused block reads 0. */
  ghost predicate MapInvariant(d: seq<u8>)
    requires |d| == MemorySize
  {
    && (forall a | 0xC000 <= a <= 0xDDFF :: d[a] == d[a + 0x2000])
    && d[InterruptFlag] & IfFixedBits == IfFixedBits
    && (forall a | 0xFEA0 <= a <= 0xFEFF :: d[a] == 0)
  }

  /** The array after writing `v` to `a`. Cartridge RAM writes go to the
      cartridge, so they leave the array alone like ROM writes do. */
  function Store(d: seq<u8>, a: Address, v: u8): (d': seq<u8>)
    requires |d| == MemorySize
    ensures |d'| == MemorySize
    ensures forall i | 0 <= i < MemorySize && i != a && !(IsMirrored(a) && i == MirrorOf(a)) :: d'[i] == d[i]
    ensures IsCartridgeAddress(a) || IsUnused(a) ==> d' == d
    ensures IsMirrored(a) ==> d'[a] == v && d'[MirrorOf(a)] == v
    ensures a == InterruptFlag ==> d'[a] == InterruptFlagValue(v)
    ensures IsPlain(a) ==> d'[a] == v
    ensures MapInvariant(d) ==> MapInvariant(d')
  {
    if a <= 0x7FFF then d
    else if 0xA000 <= a <= 0xBFFF then d
    else if 0xC000 <= a <= 0xDDFF then d[a := v][a + 0x2000 := v]
    else if 0xE000 <= a <= 0xFDFF then d[a := v][a - 0x2000 := v]
    else if 0xFEA0 <= a <= 0xFEFF then d
    else if a == InterruptFlag then d[a := InterruptFlagValue(v)]
    else d[a := v]
  }

  /** A later write to the same address overrides an earlier one, at IF
      and in the mirrored range included. */
  lemma StoreOverwrite(d: seq<u8>, a: Address, v: u8, w: u8)
    requires |d| == MemorySize
    ensures Store(Store(d, a, v), a, w) == Store(d, a, w)
  {
  }

  class Memory {
    const data: array<u8>
    const cartridge: RomOnly

    ghost predicate Valid()
      reads this
    {
      data.Length == MemorySize
    }

    /** The array satisfies the memory-map invariant. */
    ghost predicate Consistent()
      reads this, data
      requires Valid()
    {
      MapInvariant(data[..])
    }

    /** Zero-filled memory whose IF register starts at 0xE0. */
    constructor (cartridge: RomOnly)
      ensures Valid() && fresh(data) && this.cartridge == cartridge
      ensures forall i | 0 <= i < MemorySize && i != InterruptFlag :: data[i] == 0
      ensures data[InterruptFlag] == 0xE0
      ensures Consistent()
    {
      var d := new u8[MemorySize](_ => 0);
      d[InterruptFlag] := 0xE0;
      this.data := d;
      this.cartridge := cartridge;
    }

    /** Writes one byte, routed on the address. */
    method WriteByte(address: Address, value: u8)
      requires Valid()
      modifies data, cartridge
      ensures data[..] == Store(old(data[..]), address, value)
      ensures cartridge.data == old(cartridge.data)
      ensures old(Consistent()) ==> Consistent()
    {
      if address <= 0x7FFF {
        // ROM cannot be written
      } else if 0xA000 <= address <= 0xBFFF {
        cartridge.WriteByte(address, value);
      } else if 0xC000 <= address <= 0xDDFF {
        data[address] := value;
        data[address + 0x2000] := value;
      } else if 0xE000 <= address <= 0xFDFF {
        data[address] := value;
        data[address - 0x2000] := value;
      } else if 0xFEA0 <= address <= 0xFEFF {
        // unused block: writes are ignored
      } else if address == InterruptFlag {
        data[address] := InterruptFlagValue(value);
      } else {
        data[address] := value;
      }
    }

    /** A byte read at `address` is defined (a cartridge read outside what
        the cartridge can answer aborts). */
    predicate ByteReadable(address: Address)
      reads this, cartridge
    {
      IsCartridgeAddress(address) ==> cartridge.CanRead(address)
    }

    /** A word read at `address` is defined. */
    predicate WordReadable(address: Address)
      reads this, cartridge
    {
      if IsCartridgeAddress(address) then
        address < 0xFFFF && cartridge.CanRead(address) && cartridge.CanRead(address + 1)
      else
        address < 0xFFFF && ByteReadable(address + 1)
    }

    /** Reads one byte: the cartridge's answer on its addresses, the array
        everywhere else. */
    function ReadByte(address: Address): (r: u8)
      reads this, data, cartridge
      requires Valid() && ByteReadable(address)
      ensures IsCartridgeAddress(address) ==> r == cartridge.data[address]
      ensures !IsCartridgeAddress(address) ==> r == data[address]
      ensures Consistent() && IsMirrored(address) ==> r == data[MirrorOf(address)]
      ensures Consistent() && IsUnused(address) ==> r == 0
      ensures Consistent() && address == InterruptFlag ==> r & IfFixedBits == IfFixedBits
    {
      if IsCartridgeAddress(address) then cartridge.ReadByte(address) else data[address]
    }

    /** Reads a word: on every address, the byte at `address` is the high
        byte and the byte after it the low byte. */
    function ReadWord(address: Address): (r: u16)
      reads this, data, cartridge
      requires Valid() && WordReadable(address)
      ensures address < 0xFFFF && ByteReadable(address) && ByteReadable(address + 1)
      ensures r == MakeU16(ReadByte(address), ReadByte(address + 1))
    {
      if IsCartridgeAddress(address) then cartridge.ReadWord(address)
      else MakeU16(ReadByte(address), ReadByte(address + 1))
    }
  }
}
