/** The state-stack directives of a matched rule (editor.py lines 90-106):
    what each does to the list of state names, including the cases in which
    Python's `list.pop()` or `statestack[-1]` raises `IndexError`. */
module Transitions {
  import opened LexerTypes

  /** The stack after a tuple directive, applied element by element; `None`
      when a `"#pop"` or `"#push"` meets an empty list. A state name is never
      looked up here, so the list may pass through empty in between. */
  function ApplyOps(ops: seq<StackOp>, stack: seq<StateName>): Option<seq<StateName>>
  {
    if ops == [] then Some(stack)
    else match ops[0]
      case Pop => if |stack| == 0 then None else ApplyOps(ops[1..], Front(stack))
      case Push => if |stack| == 0 then None else ApplyOps(ops[1..], stack + [Last(stack)])
      case Enter(s) => ApplyOps(ops[1..], stack + [s])
  }

  /** Where Python's slice `s[index:]` starts in a list of length `n`. */
  function SliceStart(index: int, n: nat): (k: nat)
    ensures k <= n
  {
    if index < 0 then (if n + index < 0 then 0 else n + index)
    else if index > n then n else index
  }

  /** The stack after a rule's directive; `None` when the list operations
      themselves raise. An empty result is possible, and the caller's next
      `statestack[-1]` then raises. */
  function NewStack(t: Transition, stack: seq<StateName>): Option<seq<StateName>>
  {
    match t
    case Stay => Some(stack)
    case Ops(ops) => ApplyOps(ops, stack)
    case Truncate(index) => Some(stack[..SliceStart(index, |stack|)])
    case PushTop => if |stack| == 0 then None else Some(stack + [Last(stack)])
  }

  /** `n` copies of `"#pop"`. */
  function Pops(n: nat): seq<StackOp>
  {
    if n == 0 then [] else [Pop] + Pops(n - 1)
  }

  /** A tuple naming the given states. */
  function Enters(names: seq<StateName>): seq<StackOp>
  {
    if names == [] then [] else [Enter(names[0])] + Enters(names[1..])
  }

  /** Tuple elements compose left to right: a tuple `a + b` does `a`, then `b`. */
  lemma {:induction false} ApplyOpsConcat(a: seq<StackOp>, b: seq<StackOp>, stack: seq<StateName>)
    ensures ApplyOps(a + b, stack) ==
      match ApplyOps(a, stack)
      case None => None
      case Some(mid) => ApplyOps(b, mid)
  {
    if a == [] {
      assert a + b == b;
    } else {
      assert (a + b)[0] == a[0];
      assert (a + b)[1..] == a[1..] + b;
      match a[0]
      case Pop =>
        if |stack| > 0 { ApplyOpsConcat(a[1..], b, Front(stack)); }
      case Push =>
        if |stack| > 0 { ApplyOpsConcat(a[1..], b, stack + [Last(stack)]); }
      case Enter(s) =>
        ApplyOpsConcat(a[1..], b, stack + [s]);
    }
  }

  /** `n` pops remove exactly the top `n` entries, and raise when the stack
      holds fewer than `n`. */
  lemma {:induction false} ApplyPops(n: nat, stack: seq<StateName>)
    ensures n <= |stack| ==> ApplyOps(Pops(n), stack) == Some(stack[..|stack| - n])
    ensures n > |stack| ==> ApplyOps(Pops(n), stack) == None
  {
    if n > 0 {
      assert Pops(n) == [Pop] + Pops(n - 1);
      assert Pops(n)[0] == Pop && Pops(n)[1..] == Pops(n - 1);
      if |stack| > 0 {
        ApplyPops(n - 1, Front(stack));
        assert ApplyOps(Pops(n), stack) == ApplyOps(Pops(n - 1), Front(stack));
        if n <= |stack| {
          assert Front(stack)[..|Front(stack)| - (n - 1)] == stack[..|stack| - n];
        }
      }
    } else {
      assert stack[..|stack|] == stack;
    }
  }

  /** A tuple of state names pushes them all, in order. */
  lemma {:induction false} ApplyEnters(names: seq<StateName>, stack: seq<StateName>)
    ensures ApplyOps(Enters(names), stack) == Some(stack + names)
  {
    if names != [] {
      var ops := Enters(names);
      assert ops == [Enter(names[0])] + Enters(names[1..]);
      assert ops[0] == Enter(names[0]) && ops[1..] == Enters(names[1..]);
      ApplyEnters(names[1..], stack + [names[0]]);
      assert ApplyOps(Enters(names), stack) == ApplyOps(Enters(names[1..]), stack + [names[0]]);
      assert names == [names[0]] + names[1..];
      assert (stack + [names[0]]) + names[1..] == stack + names;
    } else {
      assert stack + names == stack;
    }
  }

  /** `"#pop:n"` (the integer `-n`) and a tuple of `n` `"#pop"`s agree whenever
      the stack holds at least `n` entries; when it holds fewer, the slice
      empties the list and the tuple raises. */
  lemma PopCountMatchesPops(n: nat, stack: seq<StateName>)
    requires n >= 1
    ensures n <= |stack| ==>
      NewStack(Truncate(-(n as int)), stack) == NewStack(Ops(Pops(n)), stack) == Some(stack[..|stack| - n])
    ensures n > |stack| ==>
      NewStack(Truncate(-(n as int)), stack) == Some([]) && NewStack(Ops(Pops(n)), stack) == None
  {
    ApplyPops(n, stack);
  }

  /** The directive applied to the state list in place, as the tokenizer does
      it: `append`, `pop` and `del` on a list variable. */
  method ApplyTransition(t: Transition, stack: seq<StateName>) returns (r: Option<seq<StateName>>)
    ensures r == NewStack(t, stack)
  {
    var statestack := stack;
    match t
    case Stay =>
      r := Some(statestack);
    case Ops(ops) =>
      var i := 0;
      while i < |ops|
        invariant i <= |ops|
        invariant ApplyOps(ops[i..], statestack) == ApplyOps(ops, stack)
      {
        assert ops[i..][0] == ops[i] && ops[i..][1..] == ops[i + 1..];
        match ops[i] {
        case Pop =>
          if |statestack| == 0 {
            return None;
          }
          statestack := statestack[..|statestack| - 1];
        case Push =>
          if |statestack| == 0 {
            return None;
          }
          statestack := statestack + [statestack[|statestack| - 1]];
        case Enter(s) =>
          statestack := statestack + [s];
        }
        i := i + 1;
      }
      assert ops[i..] == [];
      r := Some(statestack);
    case Truncate(index) =>
      statestack := statestack[..SliceStart(index, |statestack|)];
      r := Some(statestack);
    case PushTop =>
      if |statestack| == 0 {
        return None;
      }
      r := Some(statestack + [statestack[|statestack| - 1]]);
  }
}
