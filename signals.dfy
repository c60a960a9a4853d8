/**
 * What one step of an Intcode machine reports to its caller, shared by the
 * suspendable and the extended generations.
 */
module Signals {

  /** Why a step threw instead of returning. */
  datatype Fault =
    | UnsupportedOpcode(opcode: int)   // 'Unsupported opcode <n>'
    | UnsupportedOpcodeNaN             // the word fetched was undefined, so the opcode was NaN

  /** `step()`'s outcome: it returns true, returns false, or throws. */
  datatype Signal = CanContinue | CannotContinue | Threw(fault: Fault)

  /** Which port the step used, and with what value. */
  datatype Io =
    | Silent               // neither callback was called
    | Consumed(value: int) // the read callback was called and gave this value
    | Starved              // the read callback was called and gave null or undefined
    | Emitted(value: int)  // the write callback was called with this value
}
