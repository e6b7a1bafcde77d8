/** Small whole programs and what `RunSpec` returns for them. */
module VMExamples {
  import opened Wrappers
  import opened Numerics
  import opened Values
  import opened Results
  import opened Opcodes
  import opened Errors
  import opened VM
  import opened VMProperties

  function PushCode(v: Value): VMCode {
    VMCode(PUSH, v, NA_VALUE)
  }

  function OpCode(op: Operator): VMCode {
    VMCode(op, NA_VALUE, NA_VALUE)
  }

  function CallCode(name: string): VMCode {
    VMCode(CALL, StringValue(name), NA_VALUE)
  }

  function IntegralResult(i: Int64): ResultValue {
    Tagged(Integral).(Integral := i)
  }

  // ---------------------------------------------------------------------------
  // One instruction at a time

  /** A PUSH at `pc` puts its operand on top and moves on. */
  lemma PushAt(fops: FloatOps, table: FuncTable, codes: seq<VMCode>, pc: nat, v: Value, m: Machine)
    requires pc < |codes| && codes[pc] == PushCode(v)
    ensures Exec(fops, table, codes, pc, m) == Exec(fops, table, codes, pc + 1, Machine(m.stack + [v], m.cols))
  {
  }

  /** A STORE at `pc` pops the top value and emits its result, if it has one. */
  lemma StoreAt(fops: FloatOps, table: FuncTable, codes: seq<VMCode>, pc: nat, below: seq<Value>, v: Value, cols: seq<ResultValue>)
    requires pc < |codes| && codes[pc] == OpCode(STORE)
    ensures Exec(fops, table, codes, pc, Machine(below + [v], cols)) ==
      Exec(fops, table, codes, pc + 1, Machine(below, Stored(cols, v)))
  {
    StepIsStepStore(fops, table, Machine(below + [v], cols));
    assert (below + [v])[..|below|] == below;
  }

  lemma StepIsStepStore(fops: FloatOps, table: FuncTable, m: Machine)
    ensures Step(fops, table, OpCode(STORE), m) == StepStore(m)
  {
  }

  /** An arithmetic instruction at `pc` on a stack of exactly two values. */
  lemma ArithAt(fops: FloatOps, table: FuncTable, codes: seq<VMCode>, pc: nat, op: OpeType, x: Value, y: Value)
    requires IsArith(op) && pc < |codes| && codes[pc] == OpCode(op)
    ensures Exec(fops, table, codes, pc, Machine([x, y], [])) ==
      match Arith(fops, op, x, y)
      case Ok(v) => Exec(fops, table, codes, pc + 1, Machine([v], []))
      case Err(e) => Err(e)
  {
    ArithOnTopTwo(fops, op, [], x, y, []);
    assert [] + [x, y] == [x, y];
    StepIsStepArith(fops, table, op, Machine([x, y], []));
    if Arith(fops, op, x, y).Ok? {
      assert [] + [Arith(fops, op, x, y).value] == [Arith(fops, op, x, y).value];
    }
  }

  lemma StepIsStepArith(fops: FloatOps, table: FuncTable, op: OpeType, m: Machine)
    requires IsArith(op)
    ensures Step(fops, table, OpCode(op), m) == StepArith(fops, op, m)
  {
  }

  /** Two PUSHes at the start leave exactly their values on the stack. */
  lemma PushPair(fops: FloatOps, table: FuncTable, codes: seq<VMCode>, x: Value, y: Value)
    requires 2 <= |codes| && codes[0] == PushCode(x) && codes[1] == PushCode(y)
    ensures Exec(fops, table, codes, 0, INITIAL) == Exec(fops, table, codes, 2, Machine([x, y], []))
  {
    PushAt(fops, table, codes, 0, x, INITIAL);
    PushAt(fops, table, codes, 1, y, Machine([] + [x], []));
    assert [] + [x] + [y] == [x, y];
  }

  // ---------------------------------------------------------------------------
  // Arithmetic

  /** `PUSH x; PUSH y; op; STORE` emits the stored form of `x op y` when it succeeds. */
  lemma BinaryProgram(fops: FloatOps, table: FuncTable, op: OpeType, x: Value, y: Value, v: Value)
    requires IsArith(op) && Arith(fops, op, x, y) == Ok(v) && ToResult(v).Some?
    ensures RunSpec(fops, table, [PushCode(x), PushCode(y), OpCode(op), OpCode(STORE)]) == ([ToResult(v).value], None)
  {
    BinaryStore(fops, table, [PushCode(x), PushCode(y), OpCode(op), OpCode(STORE)], op, x, y, v);
  }

  /** The run of `BinaryProgram`, for any four instructions of that shape. */
  lemma BinaryStore(fops: FloatOps, table: FuncTable, codes: seq<VMCode>, op: OpeType, x: Value, y: Value, v: Value)
    requires IsArith(op) && Arith(fops, op, x, y) == Ok(v) && ToResult(v).Some?
    requires |codes| == 4 && codes[0] == PushCode(x) && codes[1] == PushCode(y)
    requires codes[2] == OpCode(op) && codes[3] == OpCode(STORE)
    ensures RunSpec(fops, table, codes) == ([ToResult(v).value], None)
  {
    PushPair(fops, table, codes, x, y);
    ArithAt(fops, table, codes, 2, op, x, y);
    StoreAt(fops, table, codes, 3, [], v, []);
    assert [] + [v] == [v];
    assert Stored([], v) == [ToResult(v).value];
  }

  /** `PUSH x; PUSH y; op` followed by anything fails, with no output, when `x op y` fails. */
  lemma BinaryFailure(fops: FloatOps, table: FuncTable, op: OpeType, x: Value, y: Value, rest: seq<VMCode>)
    requires IsArith(op) && Arith(fops, op, x, y).Err?
    ensures RunSpec(fops, table, [PushCode(x), PushCode(y), OpCode(op)] + rest) == ([], Some(Arith(fops, op, x, y).error))
  {
    var p := [PushCode(x), PushCode(y), OpCode(op)] + rest;
    PushPair(fops, table, p, x, y);
    ArithAt(fops, table, p, 2, op, x, y);
  }

  /** `PUSH a; PUSH b; ADD; STORE` emits the wrapped sum, and likewise for SUB and MUL. */
  lemma IntegerPrograms(fops: FloatOps, table: FuncTable, a: Int64, b: Int64)
    ensures RunSpec(fops, table, [PushCode(IntValue(a)), PushCode(IntValue(b)), OpCode(ADD), OpCode(STORE)]) ==
      ([IntegralResult(Wrap(a + b))], None)
    ensures RunSpec(fops, table, [PushCode(IntValue(a)), PushCode(IntValue(b)), OpCode(SUB), OpCode(STORE)]) ==
      ([IntegralResult(Wrap(a - b))], None)
    ensures RunSpec(fops, table, [PushCode(IntValue(a)), PushCode(IntValue(b)), OpCode(MUL), OpCode(STORE)]) ==
      ([IntegralResult(Wrap(a * b))], None)
  {
    var x, y := IntValue(a), IntValue(b);
    IntegerArith(fops, ADD, a, b);
    BinaryProgram(fops, table, ADD, x, y, IntValue(Wrap(a + b)));
    IntegerArith(fops, SUB, a, b);
    BinaryProgram(fops, table, SUB, x, y, IntValue(Wrap(a - b)));
    IntegerArith(fops, MUL, a, b);
    BinaryProgram(fops, table, MUL, x, y, IntValue(Wrap(a * b)));
  }

  /** Integer DIV emits the truncated quotient, or fails with no output on a zero divisor. */
  lemma DivProgram(fops: FloatOps, table: FuncTable, a: Int64, b: Int64)
    ensures b != 0 ==>
      RunSpec(fops, table, [PushCode(IntValue(a)), PushCode(IntValue(b)), OpCode(DIV), OpCode(STORE)]) ==
      ([IntegralResult(Div64(a, b))], None)
    ensures b == 0 ==>
      RunSpec(fops, table, [PushCode(IntValue(a)), PushCode(IntValue(b)), OpCode(DIV), OpCode(STORE)]) ==
      ([], Some(DivisionByZero))
  {
    var x, y := IntValue(a), IntValue(b);
    if b != 0 {
      IntegerArith(fops, DIV, a, b);
      BinaryProgram(fops, table, DIV, x, y, IntValue(Div64(a, b)));
    } else {
      assert Arith(fops, DIV, x, y) == Err(DivisionByZero);
      BinaryFailure(fops, table, DIV, x, y, [OpCode(STORE)]);
      assert [PushCode(x), PushCode(y), OpCode(DIV)] + [OpCode(STORE)] ==
        [PushCode(x), PushCode(y), OpCode(DIV), OpCode(STORE)];
    }
  }

  /** A float and an integer in either order add as floats, the integer widened. */
  lemma MixedAddProgram(fops: FloatOps, table: FuncTable, f: Float64, i: Int64)
    ensures RunSpec(fops, table, [PushCode(FloatValue(f)), PushCode(IntValue(i)), OpCode(ADD), OpCode(STORE)]) ==
      ([Tagged(Results.Float).(Float := fops.add(f, fops.ofInt(i)))], None)
    ensures RunSpec(fops, table, [PushCode(IntValue(i)), PushCode(FloatValue(f)), OpCode(ADD), OpCode(STORE)]) ==
      ([Tagged(Results.Float).(Float := fops.add(fops.ofInt(i), f))], None)
  {
    BinaryProgram(fops, table, ADD, FloatValue(f), IntValue(i), FloatValue(fops.add(f, fops.ofInt(i))));
    BinaryProgram(fops, table, ADD, IntValue(i), FloatValue(f), FloatValue(fops.add(fops.ofInt(i), f)));
  }

  /** Two strings cannot be added, whatever follows. */
  lemma StringAddProgram(fops: FloatOps, table: FuncTable, s: string, t: string, rest: seq<VMCode>)
    ensures RunSpec(fops, table, [PushCode(StringValue(s)), PushCode(StringValue(t)), OpCode(ADD)] + rest) ==
      ([], Some(UnsupportedOperandTypes(ADD, STRING, STRING)))
  {
    BinaryFailure(fops, table, ADD, StringValue(s), StringValue(t), rest);
  }

  /** `7 % 0` fails with a division error. */
  lemma ModByZeroProgram(fops: FloatOps, table: FuncTable)
    ensures RunSpec(fops, table, [PushCode(IntValue(7)), PushCode(IntValue(0)), OpCode(MOD)]) == ([], Some(DivisionByZero))
  {
    var x, y := IntValue(7), IntValue(0);
    var p := [PushCode(x), PushCode(y), OpCode(MOD)];
    PushPair(fops, table, p, x, y);
    ModBehaviour([x], y, []);
    assert [x] + [y] == [x, y];
    StepIsStepMod(fops, table, Machine([x, y], []));
  }

  lemma StepIsStepMod(fops: FloatOps, table: FuncTable, m: Machine)
    ensures Step(fops, table, OpCode(MOD), m) == StepMod(m)
  {
  }

  /** A lone POP on an empty stack does nothing: POP has no case in the interpreter. */
  lemma PopProgram(fops: FloatOps, table: FuncTable)
    ensures RunSpec(fops, table, [OpCode(POP)]) == ([], None)
  {
    InertOperators(fops, table, OpCode(POP), INITIAL);
  }

  // ---------------------------------------------------------------------------
  // STORE

  /** `PUSH 1; STORE; PUSH 2; STORE` emits 1 and then 2. */
  lemma StoreOrderProgram(fops: FloatOps, table: FuncTable)
    ensures RunSpec(fops, table, [PushCode(IntValue(1)), OpCode(STORE), PushCode(IntValue(2)), OpCode(STORE)]) ==
      ([IntegralResult(1), IntegralResult(2)], None)
  {
    var one, two := IntValue(1), IntValue(2);
    var p := [PushCode(one), OpCode(STORE), PushCode(two), OpCode(STORE)];
    var c1 := Stored([], one);
    PushAt(fops, table, p, 0, one, INITIAL);
    StoreAt(fops, table, p, 1, [], one, []);
    PushAt(fops, table, p, 2, two, Machine([], c1));
    StoreAt(fops, table, p, 3, [], two, c1);
    assert c1 == [IntegralResult(1)];
    assert Stored(c1, two) == [IntegralResult(1), IntegralResult(2)];
  }

  /** `PUSH 5; PUSH 3; PUSH 2; STORE; STORE; STORE` emits 2, 3, 5: the stack is emptied from the top. */
  lemma StoreStackProgram(fops: FloatOps, table: FuncTable)
    ensures RunSpec(fops, table, [PushCode(IntValue(5)), PushCode(IntValue(3)), PushCode(IntValue(2)),
                                  OpCode(STORE), OpCode(STORE), OpCode(STORE)]) ==
      ([IntegralResult(2), IntegralResult(3), IntegralResult(5)], None)
  {
    var p := [PushCode(IntValue(5)), PushCode(IntValue(3)), PushCode(IntValue(2)),
              OpCode(STORE), OpCode(STORE), OpCode(STORE)];
    StoreThree(fops, table, p, IntValue(5), IntValue(3), IntValue(2));
    StoredFiveThreeTwo();
  }

  /** With a fourth STORE the same program underflows, and the three results already stored are discarded. */
  lemma ExtraStoreProgram(fops: FloatOps, table: FuncTable)
    ensures RunSpec(fops, table, [PushCode(IntValue(5)), PushCode(IntValue(3)), PushCode(IntValue(2)),
                                  OpCode(STORE), OpCode(STORE), OpCode(STORE), OpCode(STORE)]) ==
      ([], Some(StackUnderflow))
  {
    var a, b, c := IntValue(5), IntValue(3), IntValue(2);
    var p := [PushCode(a), PushCode(b), PushCode(c), OpCode(STORE), OpCode(STORE), OpCode(STORE), OpCode(STORE)];
    StoreThree(fops, table, p, a, b, c);
    StepIsStepStore(fops, table, Machine([], Stored(Stored(Stored([], c), b), a)));
  }

  /** The results of storing 2, then 3, then 5. */
  lemma StoredFiveThreeTwo()
    ensures Stored(Stored(Stored([], IntValue(2)), IntValue(3)), IntValue(5)) ==
      [IntegralResult(2), IntegralResult(3), IntegralResult(5)]
  {
    StoredInt([], 2);
    StoredInt([IntegralResult(2)], 3);
    StoredInt([IntegralResult(2), IntegralResult(3)], 5);
  }

  /** Storing an integer appends its Integral result. */
  lemma StoredInt(cols: seq<ResultValue>, i: Int64)
    ensures Stored(cols, IntValue(i)) == cols + [IntegralResult(i)]
  {
  }

  /** Three pushes, then three stores: the values come out from the top of the stack down. */
  lemma StoreThree(fops: FloatOps, table: FuncTable, codes: seq<VMCode>, a: Value, b: Value, c: Value)
    requires 6 <= |codes|
    requires codes[0] == PushCode(a) && codes[1] == PushCode(b) && codes[2] == PushCode(c)
    requires codes[3] == OpCode(STORE) && codes[4] == OpCode(STORE) && codes[5] == OpCode(STORE)
    ensures Exec(fops, table, codes, 0, INITIAL) ==
      Exec(fops, table, codes, 6, Machine([], Stored(Stored(Stored([], c), b), a)))
  {
    PushThree(fops, table, codes, a, b, c);
    StoresAt(fops, table, codes, 3, a, b, c, []);
  }

  /** Three STOREs at `pc` on a stack of three values emit them from the top down. */
  lemma StoresAt(fops: FloatOps, table: FuncTable, codes: seq<VMCode>, pc: nat, a: Value, b: Value, c: Value, cols: seq<ResultValue>)
    requires pc + 3 <= |codes|
    requires codes[pc] == OpCode(STORE) && codes[pc + 1] == OpCode(STORE) && codes[pc + 2] == OpCode(STORE)
    ensures Exec(fops, table, codes, pc, Machine([a, b, c], cols)) ==
      Exec(fops, table, codes, pc + 3, Machine([], Stored(Stored(Stored(cols, c), b), a)))
  {
    assert [a, b, c] == [a, b] + [c] && [a, b] == [a] + [b] && [a] == [] + [a];
    StoreAt(fops, table, codes, pc, [a, b], c, cols);
    StoreAt(fops, table, codes, pc + 1, [a], b, Stored(cols, c));
    StoreAt(fops, table, codes, pc + 2, [], a, Stored(Stored(cols, c), b));
  }

  /** Three PUSHes at the start leave exactly their values on the stack. */
  lemma PushThree(fops: FloatOps, table: FuncTable, codes: seq<VMCode>, a: Value, b: Value, c: Value)
    requires 3 <= |codes| && codes[0] == PushCode(a) && codes[1] == PushCode(b) && codes[2] == PushCode(c)
    ensures Exec(fops, table, codes, 0, INITIAL) == Exec(fops, table, codes, 3, Machine([a, b, c], []))
  {
    PushPair(fops, table, codes, a, b);
    PushAt(fops, table, codes, 2, c, Machine([a, b], []));
    assert [a, b] + [c] == [a, b, c];
  }

  /** A stored string is dropped: `PUSH s; STORE` returns no results and no error. */
  lemma StoreStringProgram(fops: FloatOps, table: FuncTable, s: string)
    ensures RunSpec(fops, table, [PushCode(StringValue(s)), OpCode(STORE)]) == ([], None)
  {
    var x := StringValue(s);
    var p := [PushCode(x), OpCode(STORE)];
    PushAt(fops, table, p, 0, x, INITIAL);
    StoreAt(fops, table, p, 1, [], x, []);
    assert Stored([], x) == [];
  }

  // ---------------------------------------------------------------------------
  // CALL

  /** A CALL at `pc` whose count the stack below it can satisfy. */
  lemma CallAt(fops: FloatOps, table: FuncTable, codes: seq<VMCode>, pc: nat, f: string,
               below: seq<Value>, count: Value, cols: seq<ResultValue>)
    requires pc < |codes| && codes[pc] == CallCode(f) && ArgCount(count.Int) <= |below|
    ensures var k := ArgCount(count.Int);
      Exec(fops, table, codes, pc, Machine(below + [count], cols)) ==
      match Invoke(table, f, CallArgs(below, k), below[..|below| - k], cols)
      case Ok(m) => Exec(fops, table, codes, pc + 1, m)
      case Err(e) => Err(e)
  {
    StepIsStepCall(fops, table, f, Machine(below + [count], cols));
    CallBehaviour(table, f, below, count, cols);
  }

  lemma StepIsStepCall(fops: FloatOps, table: FuncTable, f: string, m: Machine)
    ensures Step(fops, table, CallCode(f), m) == StepCall(table, f, m)
  {
  }

  /** A CALL as the last instruction: the run ends with what the call gives. */
  lemma CallLast(fops: FloatOps, table: FuncTable, codes: seq<VMCode>, f: string,
                 below: seq<Value>, count: Value, cols: seq<ResultValue>)
    requires |codes| > 0 && codes[|codes| - 1] == CallCode(f) && ArgCount(count.Int) <= |below|
    ensures var k := ArgCount(count.Int);
      Exec(fops, table, codes, |codes| - 1, Machine(below + [count], cols)) ==
      Invoke(table, f, CallArgs(below, k), below[..|below| - k], cols)
  {
    CallAt(fops, table, codes, |codes| - 1, f, below, count, cols);
  }

  /** `PUSH a; PUSH b; PUSH 2; CALL f` hands `f` the arguments in pop order `[b, a]`. */
  lemma CallOrderProgram(fops: FloatOps, table: FuncTable, f: string, a: Value, b: Value)
    ensures Exec(fops, table, [PushCode(a), PushCode(b), PushCode(IntValue(2)), CallCode(f)], 0, INITIAL) ==
      Invoke(table, f, [b, a], [], [])
  {
    CallTwo(fops, table, [PushCode(a), PushCode(b), PushCode(IntValue(2)), CallCode(f)], f, a, b, IntValue(2));
  }

  /** The run of `CallOrderProgram`, for any four instructions of that shape and any count of 2. */
  lemma CallTwo(fops: FloatOps, table: FuncTable, codes: seq<VMCode>, f: string, a: Value, b: Value, n: Value)
    requires n.Int == 2 && |codes| == 4
    requires codes[0] == PushCode(a) && codes[1] == PushCode(b) && codes[2] == PushCode(n) && codes[3] == CallCode(f)
    ensures Exec(fops, table, codes, 0, INITIAL) == Invoke(table, f, [b, a], [], [])
  {
    PushThree(fops, table, codes, a, b, n);
    assert [a, b, n] == [a, b] + [n];
    assert ArgCount(n.Int) == 2;
    CallLast(fops, table, codes, f, [a, b], n, []);
    assert CallArgs([a, b], 2) == [b, a];
    assert [a, b][..0] == [];
  }
}
