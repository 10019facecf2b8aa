/**
  The CPU side of the NES address space (src/memory.c).

  A single 64KB byte array sits behind the 2A03 address map:
    0x0000-0x1FFF  2KB of work RAM, mirrored every 0x800 bytes
    0x2000-0x3FFF  the PPU register window (stubbed: reads give the register number)
    0x4000-0x401F  the APU/IO register window (stubbed: reads give the offset)
    0x4020-0xFFFF  cartridge space, read and written straight through to the array;
                   the loader puts one 16KB PRG-ROM bank at 0xC000
  Bytes and addresses are the C types uint8_t and uint16_t, modelled as
  integer ranges; C's masks with 0x7FF, 0x7 and 0xFF are the remainders
  they compute on these non-negative values.
*/
module Memory {

  type Byte = x: int | 0 <= x < 0x100
  type Word = x: int | 0 <= x < 0x1_0000

  const MemorySize: nat := 0x1_0000
  const RamSize: nat := 0x800
  const PpuBase: nat := 0x2000
  const ApuBase: nat := 0x4000
  const CartridgeBase: nat := 0x4020
  const HeaderSize: nat := 16
  const PrgBankBase: nat := 0xC000
  const PrgBankSize: nat := 0x4000

  datatype Option<T> = None | Some(value: T)

  /** The array cell that an address is wired to, or None inside the two register windows. */
  function Backing(addr: Word): (cell: Option<nat>)
    ensures cell.Some? <==> addr < PpuBase || CartridgeBase <= addr
    ensures cell.Some? ==> cell.value < MemorySize
    ensures addr < PpuBase ==> cell == Some(addr % RamSize)
    ensures CartridgeBase <= addr ==> cell == Some(addr)
  {
    if addr < PpuBase then Some(addr % RamSize)
    else if addr < CartridgeBase then None
    else Some(addr)
  }

  /** The static `memory[65536]` buffer and the accessors over it. */
  class Bus {
    const mem: array<Byte>

    ghost predicate Valid()
      reads this
    {
      mem.Length == MemorySize
    }

    /** A C static array starts out zero-filled. */
    constructor ()
      ensures Valid() && fresh(mem)
      ensures forall i :: 0 <= i < MemorySize ==> mem[i] == 0
    {
      mem := new Byte[MemorySize](_ => 0);
    }

    /** `fetch`: RAM reads go to the mirrored cell, the register windows never touch the array. */
    function Fetch(addr: Word): (v: Byte)
      reads this, mem
      requires Valid()
      ensures Backing(addr).Some? ==> v == mem[Backing(addr).value]
      ensures PpuBase <= addr < ApuBase ==> v < 8 && v == addr % 8
      ensures ApuBase <= addr < CartridgeBase ==> v < 0x20 && v == addr - ApuBase
    {
      if addr < 0x2000 then mem[addr % 0x800]     // memory[addr & 0x7FF]
      else if addr < 0x4000 then addr % 8         // addr & 0x7
      else if addr < 0x4020 then addr - 0x4000
      else mem[addr]
    }

    /** `fetch16`: little-endian, the second byte at the next address modulo 2^16 (no page wrap). */
    function Fetch16(addr: Word): (w: Word)
      reads this, mem
      requires Valid()
      ensures w % 0x100 == Fetch(addr)
      ensures w / 0x100 == Fetch((addr + 1) % MemorySize)
    {
      // fetch(addr) | (fetch(addr + 1) << 8): the two bytes occupy disjoint bits
      Fetch(addr) + Fetch((addr + 1) % 0x1_0000) * 0x100
    }

    /** `fetchZP16`: little-endian, both bytes taken from page zero, so 0xFF pairs with 0x00. */
    function FetchZP16(addr: Word): (w: Word)
      reads this, mem
      requires Valid()
      ensures w % 0x100 == mem[addr % 0x100]
      ensures w / 0x100 == mem[(addr + 1) % 0x100]
    {
      Fetch(addr % 0x100) + Fetch((addr + 1) % 0x100) * 0x100
    }

    /** `store`: writes at most the one cell the address is wired to. */
    method Store(addr: Word, value: Byte)
      requires Valid()
      modifies mem
      ensures Backing(addr).Some? ==> mem[..] == old(mem[..])[Backing(addr).value := value]
      ensures Backing(addr).None? ==> mem[..] == old(mem[..])
      ensures forall a: Word :: Backing(a) == Backing(addr) && Backing(a).Some? ==> Fetch(a) == value
    {
      if addr < 0x2000 {
        mem[addr % 0x800] := value;               // memory[addr & 0x7FF]
      } else if addr < 0x4000 {
        // PPU register write: not wired
      } else if addr < 0x4020 {
        // APU/IO register write: not wired
      } else {
        mem[addr] := value;
      }
    }

    /** `initMemory`: copies the first PRG-ROM bank, found after the 16-byte header, to 0xC000. */
    method InitMemory(rom: seq<Byte>)
      requires Valid()
      requires |rom| >= HeaderSize + PrgBankSize
      modifies mem
      ensures mem[..] == old(mem[..PrgBankBase]) + rom[HeaderSize..HeaderSize + PrgBankSize]
      ensures forall a: Word :: PrgBankBase <= a ==> Fetch(a) == rom[HeaderSize + (a - PrgBankBase)]
    {
      forall i | 0 <= i < PrgBankSize {
        mem[PrgBankBase + i] := rom[HeaderSize + i];
      }
      assert mem[..] == old(mem[..PrgBankBase]) + rom[HeaderSize..HeaderSize + PrgBankSize];
      forall a: Word | PrgBankBase <= a
        ensures Fetch(a) == rom[HeaderSize + (a - PrgBankBase)]
      {
        assert Backing(a) == Some(a);
      }
    }
  }

  /** Addresses 0x800 apart below 0x2000 read the same byte. */
  lemma RamMirror(bus: Bus, a: Word, b: Word)
    requires bus.Valid()
    requires a < PpuBase && b < PpuBase && a % RamSize == b % RamSize
    ensures bus.Fetch(a) == bus.Fetch(b)
  {
  }
}
