/** The instruction format: `OpeType` and `VMCode`. */
module Opcodes {
  import opened Values

  /**
   * `OpeType`.  In Go it is an `int`, so an instruction may carry a number
   * that names no operation; `Undefined(code)` stands for it.
   */
  datatype OpeType = PUSH | POP | ADD | SUB | MUL | DIV | MOD | STORE | CALL | Undefined(code: int) {

    /** An `Undefined` code is one the `iota` list does not name. */
    predicate Valid() {
      Undefined? ==> !(1 <= code <= 9)
    }

    /** `OpeType.String`: the operator's name, or the (misspelt) fallback text. */
    function String(): (s: string)
      requires Valid()
      ensures s == "Unknwon Operation" <==> Undefined?
    {
      match this
      case PUSH => "PUSH"
      case POP => "POP"
      case ADD => "ADD"
      case SUB => "SUB"
      case MUL => "MUL"
      case DIV => "DIV"
      case MOD => "MOD"
      case CALL => "CALL"
      case STORE => "STORE"
      case Undefined(_) => "Unknwon Operation"
    }
  }

  /** The number `iota` gives each operator (blank 0, then PUSH = 1 ... CALL = 9). */
  function Code(op: OpeType): (n: int)
    requires op.Valid()
    ensures op.Undefined? <==> !(1 <= n <= 9)
  {
    match op
    case PUSH => 1
    case POP => 2
    case ADD => 3
    case SUB => 4
    case MUL => 5
    case DIV => 6
    case MOD => 7
    case STORE => 8
    case CALL => 9
    case Undefined(c) => c
  }

  /** The operator an `OpeType` number denotes. */
  function OfCode(n: int): (op: OpeType)
    ensures op.Valid()
  {
    if n == 1 then PUSH
    else if n == 2 then POP
    else if n == 3 then ADD
    else if n == 4 then SUB
    else if n == 5 then MUL
    else if n == 6 then DIV
    else if n == 7 then MOD
    else if n == 8 then STORE
    else if n == 9 then CALL
    else Undefined(n)
  }

  lemma CodeOfCode(n: int)
    ensures Code(OfCode(n)) == n
  {
  }

  lemma OfCodeCode(op: OpeType)
    requires op.Valid()
    ensures OfCode(Code(op)) == op
  {
  }

  /** Distinct operators have distinct names. */
  lemma StringInjective(a: OpeType, b: OpeType)
    requires !a.Undefined? && !b.Undefined? && a != b
    ensures a.String() != b.String()
  {
  }

  /**
   * The operator field of an instruction: a well-formed `OpeType`, so that
   * the numbers 1 to 9 always denote the operators `iota` gives them.
   */
  type Operator = op: OpeType | op.Valid() witness PUSH

  /** `VMCode`: one instruction; unused operands are NA values. */
  datatype VMCode = VMCode(Operator: Operator, Operand1: Value, Operand2: Value)
}
