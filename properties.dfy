/**
 * What the interpreter promises, stated over `Step`, `Exec` and `RunSpec`
 * (and so, through `Run`'s postcondition, over the loop itself).
 */
module VMProperties {
  import opened Wrappers
  import opened Numerics
  import opened Values
  import opened Results
  import opened Opcodes
  import opened Errors
  import opened Stacks
  import opened VM

  // ---------------------------------------------------------------------------
  // Single instructions

  /** PUSH puts `Operand1` unchanged on top and leaves the results alone. */
  lemma PushOnTop(fops: FloatOps, table: FuncTable, code: VMCode, m: Machine)
    requires code.Operator.PUSH?
    ensures Step(fops, table, code, m) == Ok(Machine(m.stack + [code.Operand1], m.cols))
  {
  }

  /** POP and undefined operators have no case in the interpreter: they change nothing, even on an empty stack. */
  lemma InertOperators(fops: FloatOps, table: FuncTable, code: VMCode, m: Machine)
    requires code.Operator.POP? || code.Operator.Undefined?
    ensures Step(fops, table, code, m) == Ok(m)
  {
  }

  /** The operators that pop before doing anything else. */
  predicate Pops(op: OpeType) {
    IsArith(op) || op.MOD? || op.CALL? || op.STORE?
  }

  /** Every popping operator fails with a stack underflow on an empty stack. */
  lemma EmptyStackUnderflows(fops: FloatOps, table: FuncTable, code: VMCode, cols: seq<ResultValue>)
    requires Pops(code.Operator)
    ensures Step(fops, table, code, Machine([], cols)) == Err(StackUnderflow)
  {
  }

  /**
   * ADD, SUB, MUL and DIV replace the top two values by the outcome of
   * `Arith` on them, the lower one as the left operand; with fewer than two
   * values they underflow.
   */
  lemma ArithOnTopTwo(fops: FloatOps, op: OpeType, base: seq<Value>, ope1: Value, ope2: Value, cols: seq<ResultValue>)
    requires IsArith(op)
    ensures StepArith(fops, op, Machine(base + [ope1, ope2], cols)) ==
      match Arith(fops, op, ope1, ope2)
      case Ok(v) => Ok(Machine(base + [v], cols))
      case Err(e) => Err(e)
  {
    var st := base + [ope1, ope2];
    assert st[..|st| - 1] == base + [ope1];
    assert (base + [ope1])[..|base|] == base;
  }

  lemma ArithNeedsTwo(fops: FloatOps, op: OpeType, v: Value, cols: seq<ResultValue>)
    requires IsArith(op)
    ensures StepArith(fops, op, Machine([v], cols)) == Err(StackUnderflow)
  {
  }

  /** Two integers give the wrapped 64-bit result of `ope1 op ope2`; DIV truncates and needs a non-zero divisor. */
  lemma IntegerArith(fops: FloatOps, op: OpeType, a: Int64, b: Int64)
    requires IsArith(op) && (op.DIV? ==> b != 0)
    ensures op.ADD? ==> Arith(fops, op, IntValue(a), IntValue(b)) == Ok(IntValue(Wrap(a + b)))
    ensures op.SUB? ==> Arith(fops, op, IntValue(a), IntValue(b)) == Ok(IntValue(Wrap(a - b)))
    ensures op.MUL? ==> Arith(fops, op, IntValue(a), IntValue(b)) == Ok(IntValue(Wrap(a * b)))
    ensures op.DIV? ==>
      Arith(fops, op, IntValue(a), IntValue(b)) == Ok(IntValue(if a == MIN_INT64 && b == -1 then MIN_INT64 else TDiv(a, b)))
  {
  }

  predicate IsNumeric(t: ValueType) {
    t == INTEGER || t == FLOAT
  }

  /**
   * The type-dispatch table of the four arithmetic operators: they succeed
   * exactly on the four integer/float pairings with, for DIV, a divisor that
   * is not zero; other pairings are unsupported; the result is an integer
   * only for two integers.
   */
  lemma ArithDispatch(fops: FloatOps, op: OpeType, ope1: Value, ope2: Value)
    requires IsArith(op)
    ensures Arith(fops, op, ope1, ope2).Ok? <==>
      IsNumeric(ope1.Type) && IsNumeric(ope2.Type) && !(op.DIV? && ZeroDivisor(ope2))
    ensures !(IsNumeric(ope1.Type) && IsNumeric(ope2.Type)) ==>
      Arith(fops, op, ope1, ope2) == Err(UnsupportedOperandTypes(op, ope1.Type, ope2.Type))
    ensures IsNumeric(ope1.Type) && IsNumeric(ope2.Type) && op.DIV? && ZeroDivisor(ope2) ==>
      Arith(fops, op, ope1, ope2) == Err(DivisionByZero)
    ensures Arith(fops, op, ope1, ope2).Ok? ==>
      Arith(fops, op, ope1, ope2).value.Type == (if ope1.Type == INTEGER && ope2.Type == INTEGER then INTEGER else FLOAT)
  {
  }

  /** A float on either side: the integer side is widened and the float operator applied. */
  lemma FloatArith(fops: FloatOps, op: OpeType, ope1: Value, ope2: Value)
    requires IsArith(op) && !(op.DIV? && ZeroDivisor(ope2))
    ensures ope1.Type == FLOAT && ope2.Type == FLOAT ==>
      Arith(fops, op, ope1, ope2) == Ok(FloatValue(FloatOp(fops, op, ope1.Float, ope2.Float)))
    ensures ope1.Type == FLOAT && ope2.Type == INTEGER ==>
      Arith(fops, op, ope1, ope2) == Ok(FloatValue(FloatOp(fops, op, ope1.Float, fops.ofInt(ope2.Int))))
    ensures ope1.Type == INTEGER && ope2.Type == FLOAT ==>
      Arith(fops, op, ope1, ope2) == Ok(FloatValue(FloatOp(fops, op, fops.ofInt(ope1.Int), ope2.Float)))
  {
  }

  /**
   * MOD: the divisor's `Int` field is tested first, whatever its tag and
   * whether or not a dividend is there; then only two integers succeed.
   */
  lemma ModBehaviour(base: seq<Value>, ope2: Value, cols: seq<ResultValue>)
    ensures ope2.Int == 0 ==> StepMod(Machine(base + [ope2], cols)) == Err(DivisionByZero)
    ensures ope2.Int != 0 && base == [] ==> StepMod(Machine(base + [ope2], cols)) == Err(StackUnderflow)
    ensures ope2.Int != 0 && base != [] ==>
      var ope1 := base[|base| - 1];
      StepMod(Machine(base + [ope2], cols)) ==
        if ope1.Type == INTEGER && ope2.Type == INTEGER then
          Ok(Machine(base[..|base| - 1] + [IntValue(Mod64(ope1.Int, ope2.Int))], cols))
        else
          Err(UnsupportedOperandTypes(MOD, ope1.Type, ope2.Type))
  {
    assert (base + [ope2])[..|base|] == base;
  }

  /** MOD succeeds exactly on two integers with a non-zero divisor, leaving their truncated remainder. */
  lemma ModSucceeds(m: Machine)
    ensures StepMod(m).Ok? <==>
      |m.stack| >= 2 && m.stack[|m.stack| - 1].Int != 0 &&
      m.stack[|m.stack| - 1].Type == INTEGER && m.stack[|m.stack| - 2].Type == INTEGER
  {
    var st := m.stack;
    var n := |st|;
    if n >= 2 {
      assert TryPop(st) == Ok((st[..n - 1], st[n - 1]));
      assert st[..n - 1][..n - 2] == st[..n - 2];
      assert TryPop(st[..n - 1]) == Ok((st[..n - 2], st[n - 2]));
    }
  }

  /** The arguments CALL collects from `st` (count already popped): the top `k` values, last-pushed first. */
  function CallArgs(st: seq<Value>, k: nat): (args: seq<Value>)
    requires k <= |st|
    ensures |args| == k
    ensures forall j :: 0 <= j < k ==> args[j] == st[|st| - 1 - j]
  {
    seq(k, j requires 0 <= j < k => st[|st| - 1 - j])
  }

  /**
   * CALL pops a count `n` and then exactly `max(n, 0)` values; it underflows
   * (before looking the name up) when there are fewer, and otherwise calls
   * the function on the values in pop order.
   */
  lemma CallBehaviour(table: FuncTable, name: string, below: seq<Value>, count: Value, cols: seq<ResultValue>)
    ensures ArgCount(count.Int) > |below| ==>
      StepCall(table, name, Machine(below + [count], cols)) == Err(StackUnderflow)
    ensures ArgCount(count.Int) <= |below| ==>
      var k := ArgCount(count.Int);
      StepCall(table, name, Machine(below + [count], cols)) ==
        Invoke(table, name, CallArgs(below, k), below[..|below| - k], cols)
  {
    var st := below + [count];
    var k := ArgCount(count.Int);
    assert st[..|st| - 1] == below;
    PopManyShape(below, k);
    if k <= |below| {
      assert PopMany(below, k).value.1 == CallArgs(below, k);
    }
  }

  /**
   * The outcome of a call: an unknown name, the function's own failure, or
   * exactly one value pushed, an integer for an Integral result and a float
   * keeping the decimal fields for a Float result.
   */
  lemma InvokeOutcome(table: FuncTable, name: string, args: seq<Value>, rest: seq<Value>, cols: seq<ResultValue>)
    ensures name !in table ==> Invoke(table, name, args, rest, cols) == Err(UnknownFunction(name))
    ensures name in table && table[name](args).Failed? ==>
      Invoke(table, name, args, rest, cols) == Err(FunctionError(table[name](args).message))
    ensures name in table && table[name](args).Returned? ==>
      var r := table[name](args).result;
      Invoke(table, name, args, rest, cols) == Ok(Machine(rest + [FromResult(r)], cols)) &&
      (r.Type == Integral ==> FromResult(r) == IntValue(r.Integral)) &&
      (r.Type == Results.Float ==>
         FromResult(r).Type == FLOAT && FromResult(r).Float == r.Float &&
         FromResult(r).PartI == r.PartI && FromResult(r).PartF == r.PartF && FromResult(r).FDigit == r.FDigit &&
         FromResult(r).Int == 0 && FromResult(r).String == "")
  {
  }

  /** STORE pops one value and appends a result exactly when it is an INTEGER, FLOAT or DECIMAL. */
  lemma StoreBehaviour(below: seq<Value>, v: Value, cols: seq<ResultValue>)
    ensures v.Type in {INTEGER, FLOAT, DECIMAL} ==>
      StepStore(Machine(below + [v], cols)) == Ok(Machine(below, cols + [ToResult(v).value]))
    ensures v.Type !in {INTEGER, FLOAT, DECIMAL} ==>
      StepStore(Machine(below + [v], cols)) == Ok(Machine(below, cols))
  {
    assert (below + [v])[..|below|] == below;
  }

  /** The change in stack height of a successful instruction. */
  function HeightChange(code: VMCode, st: seq<Value>): int {
    match code.Operator
    case PUSH => 1
    case POP => 0
    case Undefined(_) => 0
    case CALL => if st == [] then 0 else 0 - ArgCount(st[|st| - 1].Int) as int
    case _ => -1
  }

  /**
   * Stack-height accounting: after a successful instruction the height is
   * the old height plus what the operator pushes minus what it pops, and
   * only STORE changes the results, by at most one appended value.
   */
  lemma StepAccounting(fops: FloatOps, table: FuncTable, code: VMCode, m: Machine)
    requires Step(fops, table, code, m).Ok?
    ensures |Step(fops, table, code, m).value.stack| == |m.stack| + HeightChange(code, m.stack)
    ensures !code.Operator.STORE? ==> Step(fops, table, code, m).value.cols == m.cols
    ensures code.Operator.STORE? ==> Step(fops, table, code, m).value.cols == Stored(m.cols, m.stack[|m.stack| - 1])
  {
    match code.Operator {
      case CALL => CallAccounting(table, code.Operand1.String, m);
      case ADD => ArithAccounting(fops, ADD, m);
      case SUB => ArithAccounting(fops, SUB, m);
      case MUL => ArithAccounting(fops, MUL, m);
      case DIV => ArithAccounting(fops, DIV, m);
      case MOD => ModAccounting(m);
      case STORE => StoreAccounting(m);
      case PUSH =>
      case POP =>
      case Undefined(_) =>
    }
  }

  lemma ArithAccounting(fops: FloatOps, op: OpeType, m: Machine)
    requires IsArith(op) && StepArith(fops, op, m).Ok?
    ensures |StepArith(fops, op, m).value.stack| == |m.stack| - 1 && StepArith(fops, op, m).value.cols == m.cols
  {
  }

  lemma ModAccounting(m: Machine)
    requires StepMod(m).Ok?
    ensures |StepMod(m).value.stack| == |m.stack| - 1 && StepMod(m).value.cols == m.cols
  {
  }

  lemma StoreAccounting(m: Machine)
    requires StepStore(m).Ok?
    ensures |StepStore(m).value.stack| == |m.stack| - 1
    ensures StepStore(m).value.cols == Stored(m.cols, m.stack[|m.stack| - 1])
  {
  }

  lemma CallAccounting(table: FuncTable, name: string, m: Machine)
    requires StepCall(table, name, m).Ok?
    ensures m.stack != [] && |StepCall(table, name, m).value.stack| == |m.stack| - ArgCount(m.stack[|m.stack| - 1].Int)
    ensures StepCall(table, name, m).value.cols == m.cols
  {
    var st := m.stack;
    var n := |st|;
    PopManyShape(st[..n - 1], ArgCount(st[n - 1].Int));
  }

  // ---------------------------------------------------------------------------
  // Whole programs

  /** Running `a + b` up to the end of `a` is running `a`. */
  lemma {:induction false} ExecPrefix(fops: FloatOps, table: FuncTable, a: seq<VMCode>, b: seq<VMCode>, pc: nat, m: Machine)
    requires pc <= |a|
    ensures Exec(fops, table, a + b, pc, m) ==
      match Exec(fops, table, a, pc, m)
      case Ok(m') => Exec(fops, table, a + b, |a|, m')
      case Err(e) => Err(e)
    decreases |a| - pc
  {
    if pc < |a| {
      assert (a + b)[pc] == a[pc];
      match Step(fops, table, a[pc], m) {
        case Ok(m1) => ExecPrefix(fops, table, a, b, pc + 1, m1);
        case Err(_) =>
      }
    }
  }

  /** Past the end of `a`, running `a + b` is running `b`. */
  lemma {:induction false} ExecSuffix(fops: FloatOps, table: FuncTable, a: seq<VMCode>, b: seq<VMCode>, i: nat, m: Machine)
    requires i <= |b|
    ensures Exec(fops, table, a + b, |a| + i, m) == Exec(fops, table, b, i, m)
    decreases |b| - i
  {
    if i < |b| {
      assert (a + b)[|a| + i] == b[i];
      match Step(fops, table, b[i], m) {
        case Ok(m1) => ExecSuffix(fops, table, a, b, i + 1, m1);
        case Err(_) =>
      }
    }
  }

  /** Running `a + b` is running `a` and then, if it succeeded, `b`. */
  lemma ExecAppend(fops: FloatOps, table: FuncTable, a: seq<VMCode>, b: seq<VMCode>, m: Machine)
    ensures Exec(fops, table, a + b, 0, m) ==
      match Exec(fops, table, a, 0, m)
      case Ok(m') => Exec(fops, table, b, 0, m')
      case Err(e) => Err(e)
  {
    ExecPrefix(fops, table, a, b, 0, m);
    if Exec(fops, table, a, 0, m).Ok? {
      ExecSuffix(fops, table, a, b, 0, Exec(fops, table, a, 0, m).value);
    }
  }

  /** Once an instruction fails, nothing after it runs and the run returns that error and no results. */
  lemma ErrorAborts(fops: FloatOps, table: FuncTable, codes: seq<VMCode>, i: nat, e: Error)
    requires i <= |codes| && Exec(fops, table, codes[..i], 0, INITIAL) == Err(e)
    ensures RunSpec(fops, table, codes) == ([], Some(e))
  {
    var a, b := codes[..i], codes[i..];
    assert a + b == codes;
    ExecAppend(fops, table, a, b, INITIAL);
    assert Exec(fops, table, codes, 0, INITIAL) == Err(e);
  }

  /** A pop on an empty stack anywhere in the program aborts the run, discarding results already stored. */
  lemma UnderflowAborts(fops: FloatOps, table: FuncTable, codes: seq<VMCode>, i: nat, m: Machine)
    requires i < |codes| && Exec(fops, table, codes[..i], 0, INITIAL) == Ok(m)
    requires m.stack == [] && Pops(codes[i].Operator)
    ensures RunSpec(fops, table, codes) == ([], Some(StackUnderflow))
  {
    var pre, c := codes[..i], codes[i];
    TakeOneMore(codes, i);
    EmptyStackUnderflows(fops, table, c, m.cols);
    ExecSingle(fops, table, c, m);
    ExecAppend(fops, table, pre, [c], INITIAL);
    ErrorAborts(fops, table, codes, i + 1, StackUnderflow);
  }

  lemma TakeOneMore(codes: seq<VMCode>, i: nat)
    requires i < |codes|
    ensures codes[..i + 1] == codes[..i] + [codes[i]]
  {
  }

  /** A one-instruction program is that instruction's step. */
  lemma ExecSingle(fops: FloatOps, table: FuncTable, c: VMCode, m: Machine)
    ensures Exec(fops, table, [c], 0, m) == Step(fops, table, c, m)
  {
  }

  /** The number of STORE instructions from `pc` on. */
  function StoreCount(codes: seq<VMCode>, pc: nat): nat
    requires pc <= |codes|
    decreases |codes| - pc
  {
    if pc == |codes| then 0 else (if codes[pc].Operator.STORE? then 1 else 0) + StoreCount(codes, pc + 1)
  }

  /**
   * Results are append-only and in execution order: a successful run extends
   * the results it started from, by at most one value per STORE.
   */
  lemma {:induction false} ResultsAppendOnly(fops: FloatOps, table: FuncTable, codes: seq<VMCode>, pc: nat, m: Machine)
    requires pc <= |codes| && Exec(fops, table, codes, pc, m).Ok?
    ensures m.cols <= Exec(fops, table, codes, pc, m).value.cols
    ensures |Exec(fops, table, codes, pc, m).value.cols| <= |m.cols| + StoreCount(codes, pc)
    decreases |codes| - pc
  {
    if pc < |codes| {
      var m1 := Step(fops, table, codes[pc], m).value;
      StepAccounting(fops, table, codes[pc], m);
      ResultsAppendOnly(fops, table, codes, pc + 1, m1);
    }
  }

  /** A successful run returns at most one result per STORE; a failed one returns none. */
  lemma RunResultBound(fops: FloatOps, table: FuncTable, codes: seq<VMCode>)
    ensures |RunSpec(fops, table, codes).0| <= StoreCount(codes, 0)
  {
    if Exec(fops, table, codes, 0, INITIAL).Ok? {
      ResultsAppendOnly(fops, table, codes, 0, INITIAL);
    }
  }

  /** A program without a STORE returns no results, whether it succeeds or fails. */
  lemma NoStoreNoResults(fops: FloatOps, table: FuncTable, codes: seq<VMCode>)
    requires StoreCount(codes, 0) == 0
    ensures RunSpec(fops, table, codes).0 == []
  {
    RunResultBound(fops, table, codes);
  }
}
