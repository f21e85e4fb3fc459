/** The processor state the core keeps: the register file, the program
    counter and the stack pointer. */
module CpuState {
  import opened Gameboy

  /** The register file. Its layout belongs to a file outside this model,
      so it is a single value that the core only carries along. */
  datatype Registers = InitialRegisters

  datatype Cpu = Cpu(r: Registers, pc: Address, sp: Address)

  /** The processor at power-on: execution starts at 0x0100, the stack at
      0xFFFE. */
  function NewCpu(): (c: Cpu)
    ensures c.pc == 0x0100
    ensures c.sp == 0xFFFE
    ensures c.r == InitialRegisters
  {
    Cpu(InitialRegisters, 0x0100, 0xFFFE)
  }
}
