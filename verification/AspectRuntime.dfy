/**
  The evaluator as it runs: one mutable state threaded through every form.  Each
  method is proved to compute what `Evaluator` says, to append to the trace, and to
  leave bindings and stack depth as it found them, whether it succeeds or fails.
*/
module AspectRuntime {
  import opened Common
  import opened Syntax
  import opened AspectIr
  import opened Evaluator

  /** `done` steps and `ops` so far with `values` read, then `rest`. */
  function Resume(values: seq<Value>, done: nat, ops: seq<HostOp>, rest: Run<seq<Value>>): Run<seq<Value>> {
    Run(if rest.outcome.Ok? then Ok(values + rest.outcome.value) else rest.outcome, done + rest.steps, ops + rest.trace)
  }

  class Machine {
    const env: Env
    const maxSteps: nat
    const maxDepth: nat
    var stepsUsed: nat
    var trace: seq<HostOp>
    var bindings: Bindings
    var stackDepth: nat

    constructor (env: Env, maxSteps: nat, bindings: Bindings)
      ensures this.env == env && this.maxSteps == maxSteps && maxDepth == MAX_STACK_DEPTH
      ensures stepsUsed == 0 && trace == [] && this.bindings == bindings && stackDepth == 0
    {
      this.env, this.maxSteps, this.maxDepth := env, maxSteps, MAX_STACK_DEPTH;
      stepsUsed, trace, this.bindings, stackDepth := 0, [], bindings, 0;
    }

    predicate Valid()
      reads this
    {
      stepsUsed <= maxSteps && stackDepth <= maxDepth
    }

    function Left(): nat
      reads this
      requires Valid()
    {
      maxSteps - stepsUsed
    }

    function Frames(): nat
      reads this
      requires Valid()
    {
      maxDepth - stackDepth
    }

    /** The machine has run `r` since it had used `steps` and traced `ops`. */
    ghost predicate Ran<T>(steps: nat, ops: seq<HostOp>, r: Run<T>)
      reads this
    {
      stepsUsed == steps + r.steps && trace == ops + r.trace
    }

    method EvalExpr(e: Expr) returns (r: Result<Value, EvalError>)
      requires Valid()
      modifies this
      ensures Valid() && bindings == old(bindings) && stackDepth == old(stackDepth)
      ensures var run := Eval(env, old(Frames()), old(Left()), old(bindings), e);
              r == run.outcome && Ran(old(stepsUsed), old(trace), run)
      decreases Frames(), 1, e, 2
    {
      match e {
        case Atom(a) => return EvalAtom(env, bindings, a);
        case List(items) =>
          if stepsUsed >= maxSteps { return Err(StepBudgetExceeded); }
          stepsUsed := stepsUsed + 1;
          r := EvalCharged(items, e);
      }
    }

    method EvalCharged(items: seq<Expr>, within: Expr) returns (r: Result<Value, EvalError>)
      requires Valid() && within == List(items)
      modifies this
      ensures Valid() && bindings == old(bindings) && stackDepth == old(stackDepth)
      ensures var run := EvalList(env, old(Frames()), old(Left()), old(bindings), items, within);
              r == run.outcome && Ran(old(stepsUsed), old(trace), run)
      decreases Frames(), 1, within, 1
    {
      if items == [] || items[0].List? { return Err(InvalidExpression); }
      var form := FormOf(env.m, items[0].name);
      if form.None? || form.value.InferenceOnly() {
        r := EvalCall(items, within);
      } else if form.value.If? || form.value.And? || form.value.Or? {
        r := EvalChoice(form.value, items, within);
      } else {
        var operands := Operands(form.value, items);
        if operands.None? { return Err(InvalidExpression); }
        OperandsSmaller(form.value, items, within);
        var args := EvalArguments(operands.value, within);
        if args.Err? { return Err(args.error); }
        var op := HostOpOf(form.value, items, args.value);
        if op.None? { return Compute(form.value, args.value); }
        trace := trace + [op.value];
        r := Ok(HostAnswer(env, op.value));
      }
    }

    method EvalChoice(form: Form, items: seq<Expr>, within: Expr) returns (r: Result<Value, EvalError>)
      requires Valid() && (form.If? || form.And? || form.Or?) && within == List(items)
      modifies this
      ensures Valid() && bindings == old(bindings) && stackDepth == old(stackDepth)
      ensures var run := EvalBranch(env, old(Frames()), old(Left()), old(bindings), form, items, within);
              r == run.outcome && Ran(old(stepsUsed), old(trace), run)
      decreases Frames(), 1, within, 0
    {
      if |items| != (if form.If? then 4 else 3) { return Err(InvalidExpression); }
      var test := EvalExpr(items[1]);
      if test.Err? { return test; }
      if !test.value.Bool? { return Err(TypeMismatch); }
      if form.If? {
        r := EvalExpr(if test.value.bit then items[2] else items[3]);
      } else if test.value.bit == form.Or? {
        r := test;
      } else {
        r := EvalExpr(items[2]);
        if r.Ok? && !r.value.Bool? { r := Err(TypeMismatch); }
      }
    }

    /** Operands from left to right. */
    method EvalArguments(operands: seq<Operand>, within: Expr) returns (r: Result<seq<Value>, EvalError>)
      requires Valid() && forall i | 0 <= i < |operands| :: operands[i].expr < within
      modifies this
      ensures Valid() && bindings == old(bindings) && stackDepth == old(stackDepth)
      ensures var run := EvalOperands(env, old(Frames()), old(Left()), old(bindings), operands, within);
              r == run.outcome && Ran(old(stepsUsed), old(trace), run)
      decreases Frames(), 1, within, 0, 0
    {
      hide EvalOperands, EvalOperand, Resume;
      ghost var steps0, trace0, b0, frames0 := stepsUsed, trace, bindings, Frames();
      ghost var all := EvalOperands(env, frames0, Left(), b0, operands, within);
      var values: seq<Value> := [];
      ghost var ops: seq<HostOp> := [];
      var i := 0;
      assert operands[0..] == operands;
      ResumeNothing(all);
      while i < |operands|
        invariant 0 <= i <= |operands| && Valid()
        invariant bindings == b0 && Frames() == frames0 && steps0 <= stepsUsed && trace == trace0 + ops
        invariant all == Resume(values, stepsUsed - steps0, ops,
                                EvalOperands(env, frames0, Left(), b0, operands[i..], within))
      {
        ghost var spec := EvalOperand(env, frames0, Left(), b0, operands[i], within);
        ResumeOperand(env, frames0, Left(), b0, operands[i..], within, values, stepsUsed - steps0, ops);
        assert operands[i..][0] == operands[i] && operands[i..][1..] == operands[i + 1..];
        var v := EvalArgument(operands[i], within);
        assert trace == trace0 + (ops + spec.trace);
        ops := ops + spec.trace;
        if v.Err? { return Err(v.error); }
        values := values + [v.value];
        i := i + 1;
      }
      assert operands[i..] == [];
      ResumeEnd(env, frames0, Left(), b0, within, values, stepsUsed - steps0, ops);
      r := Ok(values);
    }

    method EvalArgument(operand: Operand, within: Expr) returns (r: Result<Value, EvalError>)
      requires Valid() && operand.expr < within
      modifies this
      ensures Valid() && bindings == old(bindings) && stackDepth == old(stackDepth)
      ensures var run := EvalOperand(env, old(Frames()), old(Left()), old(bindings), operand, within);
              r == run.outcome && Ran(old(stepsUsed), old(trace), run)
      decreases Frames(), 1, operand.expr, 3
    {
      if operand.mode.Literally? {
        return if operand.expr.Atom? then Ok(Name(operand.expr.name)) else Err(InvalidExpression);
      }
      var v := EvalExpr(operand.expr);
      if v.Err? { return v; }
      r := Convert(operand.mode, v.value);
    }

    method EvalCall(items: seq<Expr>, within: Expr) returns (r: Result<Value, EvalError>)
      requires Valid() && items != [] && items[0].Atom? && within == List(items)
      modifies this
      ensures Valid() && bindings == old(bindings) && stackDepth == old(stackDepth)
      ensures var run := EvalActionCall(env, old(Frames()), old(Left()), old(bindings), items, within);
              r == run.outcome && Ran(old(stepsUsed), old(trace), run)
      decreases Frames(), 1, within, 0, 1
    {
      hide EvalOperands, Execute;
      var named := ActionsNamed(env.m, items[0].name);
      if |named| != 1 { return Err(InvalidExpression); }
      var operands := All(Anything, items[1..]);
      assert forall i | 0 <= i < |operands| :: operands[i].expr in items;
      ghost var first := EvalOperands(env, Frames(), Left(), bindings, operands, within);
      var args := EvalArguments(operands, within);
      if args.Err? { return Err(args.error); }
      var key := Only(named);
      ghost var second := Execute(env, Frames(), Left(), bindings, key, args.value);
      r := ExecuteNamedAction(key, args.value);
      assert (old(trace) + first.trace) + second.trace == old(trace) + (first.trace + second.trace);
      assert EvalActionCall(env, old(Frames()), old(Left()), old(bindings), items, within) == Then(first, second);
    }

    /** Opens a frame, binds the parameters over the caller's bindings, and restores both afterwards. */
    method ExecuteNamedAction(key: Key, args: seq<Value>) returns (r: Result<Value, EvalError>)
      requires Valid()
      modifies this
      ensures Valid() && bindings == old(bindings) && stackDepth == old(stackDepth)
      ensures var run := Execute(env, old(Frames()), old(Left()), old(bindings), key, args);
              r == run.outcome && Ran(old(stepsUsed), old(trace), run)
      decreases Frames(), 0
    {
      if stackDepth >= maxDepth { return Err(StackDepthExceeded); }
      stackDepth := stackDepth + 1;
      r := ExecuteInner(key, args);
      stackDepth := stackDepth - 1;
    }

    method ExecuteInner(key: Key, args: seq<Value>) returns (r: Result<Value, EvalError>)
      requires Valid() && stackDepth > 0
      modifies this
      ensures Valid() && bindings == old(bindings) && stackDepth == old(stackDepth)
      ensures var run := Execute(env, old(Frames()) + 1, old(Left()), old(bindings), key, args);
              r == run.outcome && Ran(old(stepsUsed), old(trace), run)
      decreases Frames(), 2
    {
      if key !in env.m.actions { return Err(UnknownAction); }
      var body := env.m.actions[key].body;
      if body.None? { return Err(MissingActionBody); }
      var parts := Equation(env.m, Some(key.1), body.value);
      if parts.None? || |parts.value.0| != |args| { return Err(InvalidActionBody); }
      var params := parts.value.0;
      var previous := bindings;
      var i := 0;
      while i < |params|
        invariant 0 <= i <= |params|
        invariant Bind(bindings, params[i..], args[i..]) == Bind(previous, params, args)
        invariant stepsUsed == old(stepsUsed) && trace == old(trace) && stackDepth == old(stackDepth)
      {
        assert params[i..][1..] == params[i + 1..] && args[i..][1..] == args[i + 1..];
        bindings := bindings[params[i] := args[i]];
        i := i + 1;
      }
      r := EvalExpr(parts.value.1);
      bindings := previous;
    }
  }

  lemma ResumeNothing(all: Run<seq<Value>>)
    ensures Resume([], 0, [], all) == all
  {
    if all.outcome.Ok? { assert [] + all.outcome.value == all.outcome.value; }
    assert [] + all.trace == all.trace;
  }

  lemma ResumeEnd(env: Env, frames: nat, left: nat, b: Bindings, within: Expr, values: seq<Value>, done: nat,
                  ops: seq<HostOp>)
    ensures Resume(values, done, ops, EvalOperands(env, frames, left, b, [], within)) == Run(Ok(values), done, ops)
  {
    assert values + [] == values && ops + [] == ops;
  }

  /** One operand further. */
  lemma ResumeOperand(env: Env, frames: nat, left: nat, b: Bindings, operands: seq<Operand>, within: Expr,
                      values: seq<Value>, done: nat, ops: seq<HostOp>)
    requires operands != [] && forall i | 0 <= i < |operands| :: operands[i].expr < within
    ensures var first := EvalOperand(env, frames, left, b, operands[0], within);
            Resume(values, done, ops, EvalOperands(env, frames, left, b, operands, within)) == (
              if first.outcome.Err? then Run(Err(first.outcome.error), done + first.steps, ops + first.trace)
              else Resume(values + [first.outcome.value], done + first.steps, ops + first.trace,
                          EvalOperands(env, frames, left - first.steps, b, operands[1..], within)))
  {
    hide EvalOperand;
    var first := EvalOperand(env, frames, left, b, operands[0], within);
    if first.outcome.Ok? {
      ResumeStep(values, done, ops, first.outcome.value, first,
                 EvalOperands(env, frames, left - first.steps, b, operands[1..], within));
    }
  }

  lemma ResumeStep(values: seq<Value>, done: nat, ops: seq<HostOp>, v: Value, first: Run<Value>, rest: Run<seq<Value>>)
    requires first.outcome == Ok(v)
    ensures Resume(values, done, ops,
              if rest.outcome.Err? then Then(first, rest)
              else Then(first, Run(Ok([v] + rest.outcome.value), rest.steps, rest.trace)))
         == Resume(values + [v], done + first.steps, ops + first.trace, rest)
  {
    assert ops + (first.trace + rest.trace) == (ops + first.trace) + rest.trace;
    if rest.outcome.Ok? {
      assert values + ([v] + rest.outcome.value) == (values + [v]) + rest.outcome.value;
    }
  }

  /** The entry point for a bundle's method. */
  method RunProjection(env: Env, budget: nat, projection: Key, args: seq<Value>) returns (r: Run<Value>)
    ensures r == ExecuteProjection(env, budget, projection, args)
  {
    if projection !in env.m.projections { return Run(Err(UnknownProjection), 0, []); }
    var parts := Equation(env.m, None, env.m.projections[projection]);
    if parts.None? || |parts.value.0| != |args| { return Run(Err(InvalidActionBody), 0, []); }
    var machine := new Machine(env, budget, Bind(map[], parts.value.0, args));
    var v := machine.EvalExpr(parts.value.1);
    assert forall t: seq<HostOp> :: [] + t == t;
    r := Run(v, machine.stepsUsed, machine.trace);
  }
}
