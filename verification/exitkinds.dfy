/** The exit kinds of vexcpustate.h, as the byte that a translated function leaves in the context. */
module ExitKinds {
  import opened Bits

  const GE_IGNORE: byte := 0
  const GE_SIGTRAP: byte := 1
  const GE_SIGSEGV: byte := 2
  const GE_EMWARN: byte := 4
  const GE_SYSCALL: byte := 5
  const GE_CALL: byte := 6
  const GE_RETURN: byte := 7
  const GE_YIELD: byte := 8
  const GE_INT: byte := 9
}
