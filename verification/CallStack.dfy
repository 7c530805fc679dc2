/** stCoRoutineEnv_t keeps the call stack in an array of fixed size. */
module CallStack {
  const CALL_STACK_SIZE: nat := 128
}
