/** The machine: a processor and the memory it runs from. One step decodes
    the operation at the program counter; only NOP is executed, and every
    other operation is reported as not implemented. */
module MachineCore {
  import opened Gameboy
  import opened MemoryMap
  import opened Operations
  import opened CpuState

  /** The text carried by the error for an operation that decodes but is
      not executed. */
  const Unimplemented: string := "Unimplemented"

  /** A step from `cpu` is defined: the decoder can read what it needs, and
      a NOP does not sit at the top of the address space, where advancing
      the program counter would overflow. */
  ghost predicate CanStep(cpu: Cpu, memory: Memory)
    reads memory, memory.data, memory.cartridge
  {
    && CanDecodeAt(memory, cpu.pc)
    && (memory.ReadByte(cpu.pc) == 0x00 ==> cpu.pc < 0xFFFF)
  }

  /** The processor after one step, and what the step returns. */
  function Stepped(cpu: Cpu, memory: Memory): (res: (Cpu, GameboyResult<Cycles>))
    reads memory, memory.data, memory.cartridge
    requires CanStep(cpu, memory)
    ensures res.1.Ok? <==> memory.ReadByte(cpu.pc) == 0x00
    ensures res.1.Ok? ==> res.1.value == 1 && res.0.pc == cpu.pc + 1
    ensures res.1.Err? ==> res.0 == cpu
    ensures FromMemory(cpu.pc, memory).Err? ==> res.1 == Err(FromMemory(cpu.pc, memory).error)
    ensures FromMemory(cpu.pc, memory).Ok? && FromMemory(cpu.pc, memory).value.opcode != Nop ==>
              res.1.Err? && res.1.error.kind.Unknown?
    ensures res.0.sp == cpu.sp && res.0.r == cpu.r
  {
    var result := FromMemory(cpu.pc, memory);
    if result.Err? then
      (cpu, Err(result.error))
    else if result.value.opcode.Nop? then
      (cpu.(pc := cpu.pc + 1), Ok(1))
    else
      (cpu, Err(NewError(Unknown(Unimplemented))))
  }

  /** `n` steps can be taken from `cpu`, stopping early after a step that
      returns an error. */
  ghost predicate CanRun(cpu: Cpu, memory: Memory, n: nat)
    reads memory, memory.data, memory.cartridge
    decreases n
  {
    n == 0 || (CanStep(cpu, memory) && (Stepped(cpu, memory).1.Ok? ==> CanRun(Stepped(cpu, memory).0, memory, n - 1)))
  }

  /** The processor after `n` steps and the results they returned, in order;
      the run stops after the first error. */
  ghost function Run(cpu: Cpu, memory: Memory, n: nat): (res: (Cpu, seq<GameboyResult<Cycles>>))
    reads memory, memory.data, memory.cartridge
    requires CanRun(cpu, memory, n)
    ensures |res.1| <= n
    decreases n
  {
    if n == 0 then (cpu, [])
    else
      var (next, result) := Stepped(cpu, memory);
      if result.Err? then (next, [result])
      else
        var (last, results) := Run(next, memory, n - 1);
        (last, [result] + results)
  }

  /** Over `n` zero bytes from the program counter, `n` steps each return one
      cycle and move the program counter `n` bytes on. */
  lemma {:induction false} NopSled(cpu: Cpu, memory: Memory, n: nat)
    requires memory.Valid()
    requires cpu.pc + n <= 0xFFFF
    requires forall a: Address | cpu.pc <= a < cpu.pc + n :: memory.ByteReadable(a) && memory.ReadByte(a) == 0x00
    ensures CanRun(cpu, memory, n)
    ensures Run(cpu, memory, n) == (cpu.(pc := cpu.pc + n), seq(n, _ => Ok(1)))
    decreases n
  {
    if n > 0 {
      assert memory.ByteReadable(cpu.pc) && memory.ReadByte(cpu.pc) == 0x00;
      assert OperandBytes(0x00) == 0;
      assert CanStep(cpu, memory);
      var next := Stepped(cpu, memory).0;
      assert Stepped(cpu, memory).1 == Ok(1);
      assert next == cpu.(pc := cpu.pc + 1);
      NopSled(next, memory, n - 1);
      var ones: seq<GameboyResult<Cycles>> := seq(n - 1, _ => Ok(1));
      assert Run(cpu, memory, n) == (Run(next, memory, n - 1).0, [Ok(1)] + Run(next, memory, n - 1).1);
      assert [Ok(1)] + ones == seq(n, _ => Ok(1));
    } else {
      var none: seq<GameboyResult<Cycles>> := seq(n, _ => Ok(1));
      assert none == [];
    }
  }

  class Machine {
    var cpu: Cpu
    const memory: Memory

    /** A machine over `memory` with a power-on processor. */
    constructor (memory: Memory)
      ensures this.memory == memory
      ensures cpu == NewCpu()
    {
      this.memory := memory;
      cpu := NewCpu();
    }

    /** Executes one operation. Only the processor changes, as `Stepped`
        describes; memory is left alone. */
    method Step() returns (r: GameboyResult<Cycles>)
      requires CanStep(cpu, memory)
      modifies this`cpu
      ensures (cpu, r) == Stepped(old(cpu), memory)
    {
      var result := FromMemory(cpu.pc, memory);
      if result.Ok? {
        if result.value.opcode.Nop? {
          cpu := cpu.(pc := cpu.pc + 1);
          r := Ok(1);
        } else {
          r := Err(NewError(Unknown(Unimplemented)));
        }
      } else {
        r := Err(result.error);
      }
    }
  }
}
