/**
 * The interpreter `Run`: a straight-line stack machine.  `Step` gives the
 * effect of one instruction on the machine state, `Exec` folds it over a
 * program, and `RunSpec` is what `Run` returns; the method `Run` is the
 * loop over the instructions and is proved to compute `RunSpec`.
 */
module VM {
  import opened Wrappers
  import opened Numerics
  import opened Values
  import opened Results
  import opened Opcodes
  import opened Errors
  import opened Stacks

  /** What an external function returns: a result or its own failure. */
  datatype FuncOutcome = Returned(result: ResultValue) | Failed(message: string)

  /** The external function table, keyed by function name. */
  type FuncTable = map<string, seq<Value> -> FuncOutcome>

  /** The state a run keeps: the value stack and the results emitted so far. */
  datatype Machine = Machine(stack: seq<Value>, cols: seq<ResultValue>)

  const INITIAL: Machine := Machine([], [])

  predicate IsArith(op: OpeType) {
    op.ADD? || op.SUB? || op.MUL? || op.DIV?
  }

  /** The divisor of one of the four numeric branches is zero. */
  predicate ZeroDivisor(ope2: Value) {
    (ope2.Type == INTEGER && ope2.Int == 0) || (ope2.Type == FLOAT && IsZero(ope2.Float))
  }

  function IntOp(op: OpeType, a: Int64, b: Int64): Int64
    requires IsArith(op) && (op.DIV? ==> b != 0)
  {
    match op
    case ADD => Add64(a, b)
    case SUB => Sub64(a, b)
    case MUL => Mul64(a, b)
    case DIV => Div64(a, b)
  }

  function FloatOp(fops: FloatOps, op: OpeType, a: Float64, b: Float64): Float64
    requires IsArith(op)
  {
    match op
    case ADD => fops.add(a, b)
    case SUB => fops.sub(a, b)
    case MUL => fops.mul(a, b)
    case DIV => fops.div(a, b)
  }

  /**
   * ADD, SUB, MUL and DIV on the popped operands `ope1 op ope2`: integer
   * arithmetic on two integers, float arithmetic (widening an integer side)
   * on the three pairings with a float, and an error on anything else.
   */
  function Arith(fops: FloatOps, op: OpeType, ope1: Value, ope2: Value): Result<Value, Error>
    requires IsArith(op)
  {
    if ope1.Type == INTEGER && ope2.Type == INTEGER then
      if op.DIV? && ope2.Int == 0 then Err(DivisionByZero)
      else Ok(IntValue(IntOp(op, ope1.Int, ope2.Int)))
    else if ope1.Type == FLOAT && ope2.Type == FLOAT then
      if op.DIV? && IsZero(ope2.Float) then Err(DivisionByZero)
      else Ok(FloatValue(FloatOp(fops, op, ope1.Float, ope2.Float)))
    else if ope1.Type == FLOAT && ope2.Type == INTEGER then
      if op.DIV? && ope2.Int == 0 then Err(DivisionByZero)
      else Ok(FloatValue(FloatOp(fops, op, ope1.Float, fops.ofInt(ope2.Int))))
    else if ope1.Type == INTEGER && ope2.Type == FLOAT then
      if op.DIV? && IsZero(ope2.Float) then Err(DivisionByZero)
      else Ok(FloatValue(FloatOp(fops, op, fops.ofInt(ope1.Int), ope2.Float)))
    else
      Err(UnsupportedOperandTypes(op, ope1.Type, ope2.Type))
  }

  /** The number of arguments CALL pops for a count `n`: none when `n` is not positive. */
  function ArgCount(n: Int64): nat
  {
    if n <= 0 then 0 else n
  }

  /** CALL's conversion of a function result to a stack value. */
  function FromResult(r: ResultValue): (v: Value)
    ensures r.Type == Integral ==> v == IntValue(r.Integral)
    ensures r.Type == Results.Float ==>
      v.Type == FLOAT && v.Float == r.Float && v.PartI == r.PartI && v.PartF == r.PartF && v.FDigit == r.FDigit &&
      v.Int == 0 && v.String == ""
    ensures r.Type == Decimal ==> v == ZERO_VALUE
  {
    match r.Type
    case Integral => IntValue(r.Integral)
    case Float => ZERO_VALUE.(Type := FLOAT, Float := r.Float, PartI := r.PartI, PartF := r.PartF, FDigit := r.FDigit)
    case Decimal => ZERO_VALUE
  }

  /** STORE's conversion of a stack value to a result; strings, NA and zero values have none. */
  function ToResult(v: Value): (r: Option<ResultValue>)
    ensures r.Some? <==> v.Type in {INTEGER, FLOAT, DECIMAL}
    ensures v.Type == INTEGER ==> r == Some(Tagged(Integral).(Integral := v.Int))
    ensures v.Type == FLOAT ==> r == Some(Tagged(Results.Float).(Float := v.Float))
    ensures v.Type == DECIMAL ==> r == Some(Tagged(Decimal).(PartI := v.PartI, PartF := v.PartF, FDigit := v.FDigit))
  {
    match v.Type
    case INTEGER => Some(Tagged(Integral).(Integral := v.Int))
    case FLOAT => Some(Tagged(Results.Float).(Float := v.Float))
    case DECIMAL => Some(Tagged(Decimal).(PartI := v.PartI, PartF := v.PartF, FDigit := v.FDigit))
    case _ => None
  }

  /** The results after a STORE of `v`. */
  function Stored(cols: seq<ResultValue>, v: Value): seq<ResultValue> {
    match ToResult(v)
    case Some(r) => cols + [r]
    case None => cols
  }

  /** ADD, SUB, MUL, DIV: pop `ope2`, then `ope1`, and push `ope1 op ope2`. */
  function StepArith(fops: FloatOps, op: OpeType, m: Machine): Result<Machine, Error>
    requires IsArith(op)
  {
    var p2 :- TryPop(m.stack);
    var p1 :- TryPop(p2.0);
    var v :- Arith(fops, op, p1.1, p2.1);
    Ok(Machine(p1.0 + [v], m.cols))
  }

  /** MOD: pop the divisor and reject a zero `Int` field before popping the dividend. */
  function StepMod(m: Machine): Result<Machine, Error> {
    var p2 :- TryPop(m.stack);
    if p2.1.Int == 0 then Err(DivisionByZero)
    else
      var p1 :- TryPop(p2.0);
      if p1.1.Type == INTEGER && p2.1.Type == INTEGER then
        Ok(Machine(p1.0 + [IntValue(Mod64(p1.1.Int, p2.1.Int))], m.cols))
      else
        Err(UnsupportedOperandTypes(MOD, p1.1.Type, p2.1.Type))
  }

  /** The call of function `name` on `args`, its converted result pushed on `rest`. */
  function Invoke(table: FuncTable, name: string, args: seq<Value>, rest: seq<Value>, cols: seq<ResultValue>): Result<Machine, Error> {
    if name !in table then Err(UnknownFunction(name))
    else
      match table[name](args)
      case Failed(msg) => Err(FunctionError(msg))
      case Returned(r) => Ok(Machine(rest + [FromResult(r)], cols))
  }

  /** CALL: pop the count, then that many arguments, then call `name`. */
  function StepCall(table: FuncTable, name: string, m: Machine): Result<Machine, Error> {
    var p :- TryPop(m.stack);
    var q :- PopMany(p.0, ArgCount(p.1.Int));
    Invoke(table, name, q.1, q.0, m.cols)
  }

  /** STORE: pop one value and emit its result, if it has one. */
  function StepStore(m: Machine): Result<Machine, Error> {
    var p :- TryPop(m.stack);
    Ok(Machine(p.0, Stored(m.cols, p.1)))
  }

  /** The effect of one instruction; POP and undefined operators have none. */
  function Step(fops: FloatOps, table: FuncTable, code: VMCode, m: Machine): Result<Machine, Error> {
    match code.Operator
    case PUSH => Ok(Machine(m.stack + [code.Operand1], m.cols))
    case ADD | SUB | MUL | DIV => StepArith(fops, code.Operator, m)
    case MOD => StepMod(m)
    case CALL => StepCall(table, code.Operand1.String, m)
    case STORE => StepStore(m)
    case POP => Ok(m)
    case Undefined(_) => Ok(m)
  }

  /** The instructions from `pc` on, executed in order from `m`; the first failure ends the run. */
  function Exec(fops: FloatOps, table: FuncTable, codes: seq<VMCode>, pc: nat, m: Machine): Result<Machine, Error>
    requires pc <= |codes|
    decreases |codes| - pc
  {
    if pc == |codes| then Ok(m)
    else
      match Step(fops, table, codes[pc], m)
      case Err(e) => Err(e)
      case Ok(m') => Exec(fops, table, codes, pc + 1, m')
  }

  /** What `Run` returns: the emitted results, or no results and the error. */
  function RunSpec(fops: FloatOps, table: FuncTable, codes: seq<VMCode>): (out: (seq<ResultValue>, Option<Error>))
    ensures out.1.Some? ==> out.0 == []
  {
    match Exec(fops, table, codes, 0, INITIAL)
    case Ok(m) => (m.cols, None)
    case Err(e) => ([], Some(e))
  }

  /** The state a method has reached agrees with the outcome `r` of a step. */
  predicate Agrees(r: Result<Machine, Error>, items: seq<Value>, cols: seq<ResultValue>, err: Option<Error>) {
    match r
    case Ok(m) => err == None && m == Machine(items, cols)
    case Err(e) => err == Some(e)
  }

  /** The interpreter loop. */
  method Run(fops: FloatOps, table: FuncTable, codes: seq<VMCode>) returns (cols: seq<ResultValue>, err: Option<Error>)
    ensures (cols, err) == RunSpec(fops, table, codes)
  {
    var s := new Stack();
    cols := [];
    for pc := 0 to |codes|
      invariant Exec(fops, table, codes, 0, INITIAL) == Exec(fops, table, codes, pc, Machine(s.items, cols))
    {
      var code := codes[pc];
      var e: Option<Error> := None;
      match code.Operator {
        case PUSH =>
          s.Push(code.Operand1);
        case ADD | SUB | MUL | DIV =>
          e := ExecArith(fops, code.Operator, s, cols);
        case MOD =>
          e := ExecMod(s, cols);
        case CALL =>
          e := ExecCall(table, code.Operand1.String, s, cols);
        case STORE =>
          cols, e := ExecStore(s, cols);
        case POP =>
        case Undefined(_) =>
      }
      if e.Some? {
        return [], e;
      }
    }
    return cols, None;
  }

  /** One ADD, SUB, MUL or DIV instruction. */
  method ExecArith(fops: FloatOps, op: OpeType, s: Stack, cols: seq<ResultValue>) returns (err: Option<Error>)
    requires IsArith(op)
    modifies s
    ensures Agrees(StepArith(fops, op, Machine(old(s.items), cols)), s.items, cols, err)
  {
    var r2 := s.Pop();
    if r2.Err? {
      return Some(r2.error);
    }
    var r1 := s.Pop();
    if r1.Err? {
      return Some(r1.error);
    }
    var v;
    v, err := Compute(fops, op, r1.value, r2.value);
    if err.None? {
      s.Push(v);
    }
  }

  /** The type dispatch of ADD, SUB, MUL and DIV on `ope1 op ope2`. */
  method Compute(fops: FloatOps, op: OpeType, ope1: Value, ope2: Value) returns (v: Value, err: Option<Error>)
    requires IsArith(op)
    ensures Arith(fops, op, ope1, ope2) == if err.None? then Ok(v) else Err(err.value)
  {
    v := ZERO_VALUE;
    if ope1.Type == INTEGER && ope2.Type == INTEGER {
      if op.DIV? && ope2.Int == 0 {
        return v, Some(DivisionByZero);
      }
      v := IntValue(IntOp(op, ope1.Int, ope2.Int));
    } else if ope1.Type == FLOAT && ope2.Type == FLOAT {
      if op.DIV? && IsZero(ope2.Float) {
        return v, Some(DivisionByZero);
      }
      v := FloatValue(FloatOp(fops, op, ope1.Float, ope2.Float));
    } else if ope1.Type == FLOAT && ope2.Type == INTEGER {
      if op.DIV? && ope2.Int == 0 {
        return v, Some(DivisionByZero);
      }
      v := FloatValue(FloatOp(fops, op, ope1.Float, fops.ofInt(ope2.Int)));
    } else if ope1.Type == INTEGER && ope2.Type == FLOAT {
      if op.DIV? && IsZero(ope2.Float) {
        return v, Some(DivisionByZero);
      }
      v := FloatValue(FloatOp(fops, op, fops.ofInt(ope1.Int), ope2.Float));
    } else {
      return v, Some(UnsupportedOperandTypes(op, ope1.Type, ope2.Type));
    }
    return v, None;
  }

  /** One MOD instruction: the divisor's `Int` field is tested before the dividend is popped. */
  method ExecMod(s: Stack, cols: seq<ResultValue>) returns (err: Option<Error>)
    modifies s
    ensures Agrees(StepMod(Machine(old(s.items), cols)), s.items, cols, err)
  {
    var r2 := s.Pop();
    if r2.Err? {
      return Some(r2.error);
    }
    var ope2 := r2.value;
    if ope2.Int == 0 {
      return Some(DivisionByZero);
    }
    var r1 := s.Pop();
    if r1.Err? {
      return Some(r1.error);
    }
    var ope1 := r1.value;
    if ope1.Type == INTEGER && ope2.Type == INTEGER {
      s.Push(IntValue(Mod64(ope1.Int, ope2.Int)));
    } else {
      return Some(UnsupportedOperandTypes(MOD, ope1.Type, ope2.Type));
    }
    return None;
  }

  /**
   * One CALL instruction: pop the count, pop that many arguments (last-pushed
   * first), look the function up by name, call it and push its converted result.
   */
  method ExecCall(table: FuncTable, name: string, s: Stack, cols: seq<ResultValue>) returns (err: Option<Error>)
    modifies s
    ensures Agrees(StepCall(table, name, Machine(old(s.items), cols)), s.items, cols, err)
  {
    var rn := s.Pop();
    if rn.Err? {
      return Some(rn.error);
    }
    var args;
    args, err := PopArgs(s, rn.value.Int);
    if err.Some? {
      return err;
    }
    if name !in table {
      return Some(UnknownFunction(name));
    }
    var r := table[name](args);
    if r.Failed? {
      return Some(FunctionError(r.message));
    }
    var vr: Value;
    match r.result.Type {
      case Integral =>
        vr := IntValue(r.result.Integral);
      case Float =>
        vr := ZERO_VALUE.(Type := FLOAT, Float := r.result.Float, PartI := r.result.PartI,
                          PartF := r.result.PartF, FDigit := r.result.FDigit);
      case Decimal =>
        vr := ZERO_VALUE;
    }
    s.Push(vr);
  }

  /** CALL's argument loop: pop while the counter is below `n`, keeping the values in pop order. */
  method PopArgs(s: Stack, n: Int64) returns (args: seq<Value>, err: Option<Error>)
    modifies s
    ensures match PopMany(old(s.items), ArgCount(n))
            case Ok((rest, vs)) => err == None && args == vs && s.items == rest
            case Err(e) => err == Some(e)
  {
    ghost var below := s.items;
    PopManyShape(below, ArgCount(n));
    args := [];
    var i := 0;
    while i < n
      invariant 0 <= i <= ArgCount(n) && i <= |below|
      invariant s.items == below[..|below| - i]
      invariant |args| == i
      invariant forall j :: 0 <= j < i ==> args[j] == below[|below| - 1 - j]
    {
      var rv := s.Pop();
      if rv.Err? {
        return args, Some(rv.error);
      }
      args := args + [rv.value];
      i := i + 1;
    }
    return args, None;
  }

  /** One STORE instruction: append the popped value's result, or drop it when it has none. */
  method ExecStore(s: Stack, cols: seq<ResultValue>)
    returns (cols': seq<ResultValue>, err: Option<Error>)
    modifies s
    ensures Agrees(StepStore(Machine(old(s.items), cols)), s.items, cols', err)
  {
    cols' := cols;
    var rv := s.Pop();
    if rv.Err? {
      return cols, Some(rv.error);
    }
    var v := rv.value;
    match v.Type {
      case INTEGER =>
        cols' := cols + [Tagged(Integral).(Integral := v.Int)];
      case FLOAT =>
        cols' := cols + [Tagged(Results.Float).(Float := v.Float)];
      case DECIMAL =>
        cols' := cols + [Tagged(Decimal).(PartI := v.PartI, PartF := v.PartF, FDigit := v.FDigit)];
      case _ =>
    }
    return cols', None;
  }
}
