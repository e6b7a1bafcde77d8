/**
 * The two value records the interpreter moves around: `value.Value`, carried
 * on the stack and in instruction operands, and `result.Value`, emitted by
 * STORE and returned by external functions.  Both are records whose fields
 * all exist whatever the tag says, as Go structs do; the interpreter reads
 * some fields (`Int`, `String`) without looking at the tag.
 */
module Values {
  import opened Numerics

  /**
   * The tag of a stack value.  `Unset` stands for the tag of Go's zero
   * `value.Value{}`, which the interpreter can push (see `FromResult`); it
   * matches none of the named tags.
   */
  datatype ValueType = Unset | INTEGER | FLOAT | DECIMAL | STRING | NA

  /** `value.Value`: a decimal keeps its integer part, fractional part and fractional digit count. */
  datatype Value = Value(
    Type: ValueType,
    Int: Int64,
    Float: Float64,
    String: string,
    PartI: int,
    PartF: int,
    FDigit: int)

  /** Go's zero `value.Value{}`. */
  const ZERO_VALUE: Value := Value(Unset, 0, 0, "", 0, 0, 0)

  /** An operand that is not used. */
  const NA_VALUE: Value := ZERO_VALUE.(Type := NA)

  /** `value.Value{Type: STRING, String: s}`. */
  function StringValue(s: string): Value
  {
    ZERO_VALUE.(Type := STRING, String := s)
  }

  /** `value.Value{Type: INTEGER, Int: i}`. */
  function IntValue(i: Int64): Value
  {
    ZERO_VALUE.(Type := INTEGER, Int := i)
  }

  /** `value.Value{Type: FLOAT, Float: f}`. */
  function FloatValue(f: Float64): Value
  {
    ZERO_VALUE.(Type := FLOAT, Float := f)
  }
}

/** The `result` package: the tagged record that leaves the interpreter. */
module Results {
  import opened Numerics

  datatype ResultType = Integral | Float | Decimal

  /** `result.Value`. */
  datatype ResultValue = ResultValue(
    Type: ResultType,
    Integral: Int64,
    Float: Float64,
    PartI: int,
    PartF: int,
    FDigit: int)

  /** Go's zero `result.Value{}` with the tag set. */
  function Tagged(t: ResultType): ResultValue
  {
    ResultValue(t, 0, 0, 0, 0, 0)
  }
}
