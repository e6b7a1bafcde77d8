/** The ways a run of the interpreter can fail. */
module Errors {
  import opened Values
  import opened Opcodes

  datatype Error =
    | StackUnderflow
    | DivisionByZero
    | UnsupportedOperandTypes(op: OpeType, left: ValueType, right: ValueType)
    | UnknownFunction(name: string)
    | FunctionError(message: string)
}
