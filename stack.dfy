/**
 * The value stack of one run: push at the tail, pop from the tail, and a pop
 * on an empty stack is an error rather than undefined behaviour.
 */
module Stacks {
  import opened Wrappers
  import opened Values
  import opened Errors

  /** A pop on a stack given as a sequence: the rest of the stack and the popped value. */
  function TryPop(st: seq<Value>): (r: Result<(seq<Value>, Value), Error>)
    ensures r.Ok? <==> |st| > 0
    ensures r.Err? ==> r.error == StackUnderflow
    ensures r.Ok? ==> r.value.0 + [r.value.1] == st
  {
    if |st| == 0 then Err(StackUnderflow) else Ok((st[..|st| - 1], st[|st| - 1]))
  }

  /**
   * `k` pops one after the other: the rest of the stack and the popped values
   * in the order they came off.
   */
  function PopMany(st: seq<Value>, k: nat): Result<(seq<Value>, seq<Value>), Error>
    decreases k
  {
    if k == 0 then Ok((st, []))
    else
      match TryPop(st)
      case Err(e) => Err(e)
      case Ok((rest, v)) =>
        match PopMany(rest, k - 1)
        case Err(e) => Err(e)
        case Ok((rest', vs)) => Ok((rest', [v] + vs))
  }

  /**
   * `k` pops succeed exactly when the stack holds `k` values; they leave the
   * bottom `|st| - k` values and deliver the top `k` last-pushed first.
   */
  lemma {:induction false} PopManyShape(st: seq<Value>, k: nat)
    ensures PopMany(st, k).Ok? <==> k <= |st|
    ensures PopMany(st, k).Err? ==> PopMany(st, k).error == StackUnderflow
    ensures k <= |st| ==> PopMany(st, k).value.0 == st[..|st| - k]
    ensures k <= |st| ==> |PopMany(st, k).value.1| == k
    ensures k <= |st| ==> forall j :: 0 <= j < k ==> PopMany(st, k).value.1[j] == st[|st| - 1 - j]
  {
    if k > 0 && |st| > 0 {
      var rest := st[..|st| - 1];
      PopManyShape(rest, k - 1);
      if k <= |st| {
        assert rest[..|rest| - (k - 1)] == st[..|st| - k];
        var vs := PopMany(st, k).value.1;
        forall j | 0 <= j < k
          ensures vs[j] == st[|st| - 1 - j]
        {
          if j > 0 {
            assert vs[j] == PopMany(rest, k - 1).value.1[j - 1];
          }
        }
      }
    }
  }

  class Stack {
    /** Bottom first, top last. */
    var items: seq<Value>

    constructor ()
      ensures items == []
    {
      items := [];
    }

    method Push(v: Value)
      modifies this
      ensures items == old(items) + [v]
    {
      items := items + [v];
    }

    method Pop() returns (r: Result<Value, Error>)
      modifies this
      ensures TryPop(old(items)).Err? ==> r == Err(StackUnderflow) && items == old(items)
      ensures TryPop(old(items)).Ok? ==> r == Ok(TryPop(old(items)).value.1) && items == TryPop(old(items)).value.0
    {
      if |items| == 0 {
        return Err(StackUnderflow);
      }
      r := Ok(items[|items| - 1]);
      items := items[..|items| - 1];
    }
  }
}
