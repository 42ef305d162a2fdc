/** The step budget: an exact threshold, and a bound on how many steps an expression can take. */
module Budget {
  import opened Common
  import opened Syntax
  import opened AspectIr
  import opened Evaluator

  /** `r'`, the run of the same thing with `left'` steps, agrees with `r` exactly when `left'` suffices for it. */
  ghost predicate AtThreshold<T>(r: Run<T>, left': nat, r': Run<T>) {
    r.outcome != Err(StepBudgetExceeded) ==>
      if r.steps <= left' then r' == r else r'.outcome == Err(StepBudgetExceeded)
  }

  /** A run that ends with `k` steps is the same for every budget of at least `k` and exceeds every smaller one. */
  lemma {:induction false} EvalThreshold(env: Env, frames: nat, left: nat, left': nat, b: Bindings, e: Expr)
    ensures AtThreshold(Eval(env, frames, left, b, e), left', Eval(env, frames, left', b, e))
    decreases frames, 1, e, 2
  {
    if e.List? && left != 0 && left' != 0 {
      ListThreshold(env, frames, left - 1, left' - 1, b, e.items, e);
    }
  }

  lemma {:induction false} ListThreshold(env: Env, frames: nat, left: nat, left': nat, b: Bindings, items: seq<Expr>,
                                         within: Expr)
    requires within == List(items)
    ensures AtThreshold(EvalList(env, frames, left, b, items, within), left',
                        EvalList(env, frames, left', b, items, within))
    decreases frames, 1, within, 1
  {
    if items != [] && items[0].Atom? {
      var form := FormOf(env.m, items[0].name);
      if form.None? || form.value.InferenceOnly() {
        ActionCallThreshold(env, frames, left, left', b, items, within);
      } else if form.value.If? || form.value.And? || form.value.Or? {
        BranchThreshold(env, frames, left, left', b, form.value, items, within);
      } else if Operands(form.value, items).Some? {
        OperandsSmaller(form.value, items, within);
        OperandsThreshold(env, frames, left, left', b, Operands(form.value, items).value, within);
      }
    }
  }

  lemma {:induction false} BranchThreshold(env: Env, frames: nat, left: nat, left': nat, b: Bindings, form: Form,
                                           items: seq<Expr>, within: Expr)
    requires (form.If? || form.And? || form.Or?) && within == List(items)
    ensures AtThreshold(EvalBranch(env, frames, left, b, form, items, within), left',
                        EvalBranch(env, frames, left', b, form, items, within))
    decreases frames, 1, within, 0
  {
    hide Eval;
    if |items| == (if form.If? then 4 else 3) {
      EvalThreshold(env, frames, left, left', b, items[1]);
      var test := Read(AsBool, Eval(env, frames, left, b, items[1]));
      if test.steps <= left' {
        EvalThreshold(env, frames, left - test.steps, left' - test.steps, b, items[2]);
        if form.If? { EvalThreshold(env, frames, left - test.steps, left' - test.steps, b, items[3]); }
      }
    }
  }

  lemma {:induction false} OperandsThreshold(env: Env, frames: nat, left: nat, left': nat, b: Bindings,
                                             operands: seq<Operand>, within: Expr)
    requires forall i | 0 <= i < |operands| :: operands[i].expr < within
    ensures AtThreshold(EvalOperands(env, frames, left, b, operands, within), left',
                        EvalOperands(env, frames, left', b, operands, within))
    decreases frames, 1, within, 0, |operands|
  {
    hide EvalOperand;
    if operands != [] {
      OperandThreshold(env, frames, left, left', b, operands[0], within);
      var first := EvalOperand(env, frames, left, b, operands[0], within);
      if first.outcome.Ok? && first.steps <= left' {
        OperandsThreshold(env, frames, left - first.steps, left' - first.steps, b, operands[1..], within);
      }
    }
  }

  lemma {:induction false} OperandThreshold(env: Env, frames: nat, left: nat, left': nat, b: Bindings,
                                            operand: Operand, within: Expr)
    requires operand.expr < within
    ensures AtThreshold(EvalOperand(env, frames, left, b, operand, within), left',
                        EvalOperand(env, frames, left', b, operand, within))
    decreases frames, 1, operand.expr, 3
  {
    if operand.mode != Literally { EvalThreshold(env, frames, left, left', b, operand.expr); }
  }

  lemma {:induction false} ActionCallThreshold(env: Env, frames: nat, left: nat, left': nat, b: Bindings,
                                               items: seq<Expr>, within: Expr)
    requires items != [] && items[0].Atom? && within == List(items)
    ensures AtThreshold(EvalActionCall(env, frames, left, b, items, within), left',
                        EvalActionCall(env, frames, left', b, items, within))
    decreases frames, 1, within, 0
  {
    hide EvalOperands, Execute;
    var named := ActionsNamed(env.m, items[0].name);
    if |named| == 1 {
      var operands := All(Anything, items[1..]);
      assert forall i | 0 <= i < |operands| :: operands[i].expr in items;
      OperandsThreshold(env, frames, left, left', b, operands, within);
      var args := EvalOperands(env, frames, left, b, operands, within);
      if args.outcome.Ok? && args.steps <= left' {
        ExecuteThreshold(env, frames, left - args.steps, left' - args.steps, b, Only(named), args.outcome.value);
      }
    }
  }

  lemma {:induction false} ExecuteThreshold(env: Env, frames: nat, left: nat, left': nat, b: Bindings, key: Key,
                                            args: seq<Value>)
    ensures AtThreshold(Execute(env, frames, left, b, key, args), left', Execute(env, frames, left', b, key, args))
    decreases frames, 0
  {
    if frames != 0 && key in env.m.actions && env.m.actions[key].body.Some? {
      var parts := Equation(env.m, Some(key.1), env.m.actions[key].body.value);
      if parts.Some? && |parts.value.0| == |args| {
        EvalThreshold(env, frames - 1, left, left', Bind(b, parts.value.0, args), parts.value.1);
      }
    }
  }

  /** A projection call that ends in `k` steps ends the same way for every budget from `k` up, and for none below. */
  lemma ProjectionThreshold(env: Env, budget: nat, budget': nat, projection: Key, args: seq<Value>)
    ensures AtThreshold(ExecuteProjection(env, budget, projection, args), budget',
                        ExecuteProjection(env, budget', projection, args))
  {
    if projection in env.m.projections {
      var parts := Equation(env.m, None, env.m.projections[projection]);
      if parts.Some? && |parts.value.0| == |args| {
        EvalThreshold(env, MAX_STACK_DEPTH, budget, budget', Bind(map[], parts.value.0, args), parts.value.1);
      }
    }
  }

  // ------------------------------------------------------------------- step bound

  /** The number of list nodes of an expression. */
  function Size(e: Expr): nat
    decreases e, 1
  {
    match e case Atom(_) => 0 case List(items) => 1 + SizeAll(items)
  }

  function SizeAll(es: seq<Expr>): nat
    decreases es, 0
  {
    if es == [] then 0 else Size(es[0]) + SizeAll(es[1..])
  }

  /** `1 + width + .. + width^frames`. */
  function Geometric(width: nat, frames: nat): (r: nat)
    ensures r >= 1
  {
    if frames == 0 then 1 else 1 + width * Geometric(width, frames - 1)
  }

  ghost predicate BodiesWithin(m: Module, width: nat) {
    forall k | k in m.actions && m.actions[k].body.Some? :: Size(m.actions[k].body.value) <= width
  }

  function Exprs(os: seq<Operand>): seq<Expr> {
    seq(|os|, i requires 0 <= i < |os| => os[i].expr)
  }

  /** Except for events, operands are the items after the head, in order. */
  lemma OperandsAreItems(form: Form, items: seq<Expr>)
    requires items != [] && Operands(form, items).Some? && !form.Emit?
    ensures var os := Operands(form, items).value; |os| < |items| && Exprs(os) == items[1..1 + |os|]
  {
    var os := Operands(form, items).value;
    forall i | 0 <= i < |os| ensures Exprs(os)[i] == items[1..1 + |os|][i] {
      assert os[i].expr == items[1 + i];
    }
  }

  lemma {:induction false} SizeAllAppend(a: seq<Expr>, b: seq<Expr>)
    ensures SizeAll(a + b) == SizeAll(a) + SizeAll(b)
  {
    if a == [] {
      assert a + b == b;
    } else {
      assert (a + b)[1..] == a[1..] + b;
      SizeAllAppend(a[1..], b);
    }
  }

  lemma OperandsSize(form: Form, items: seq<Expr>)
    requires items != [] && Operands(form, items).Some?
    ensures SizeAll(Exprs(Operands(form, items).value)) <= SizeAll(items)
  {
    var os := Operands(form, items).value;
    if form.Emit? {
      assert items == [items[0], items[1]];
      assert items[1..][1..] == [];
      assert Exprs(os) == EventParts(items[1]);
      assert SizeAll(items) == Size(items[0]) + SizeAll(items[1..])
             && SizeAll(items[1..]) == Size(items[1]) + SizeAll([]);
      if items[1].Atom? { assert SizeAll([items[1]]) == Size(items[1]) + SizeAll([items[1]][1..]); }
    } else {
      OperandsAreItems(form, items);
      assert items == [items[0]] + items[1..1 + |os|] + items[1 + |os|..];
      SizeAllAppend([items[0]] + items[1..1 + |os|], items[1 + |os|..]);
      SizeAllAppend([items[0]], items[1..1 + |os|]);
    }
  }

  /** Each list node is charged at most once, and at most one frame is opened for it. */
  lemma {:induction false} StepBound(env: Env, frames: nat, left: nat, b: Bindings, e: Expr, width: nat)
    requires BodiesWithin(env.m, width)
    ensures Eval(env, frames, left, b, e).steps <= Size(e) * Geometric(width, frames)
    decreases frames, 1, e, 2
  {
    if e.List? && left != 0 {
      ListStepBound(env, frames, left - 1, b, e.items, e, width);
      Distribute(1, SizeAll(e.items), Geometric(width, frames));
    } else {
      assert 0 <= Size(e) * Geometric(width, frames);
    }
  }

  lemma {:induction false} ListStepBound(env: Env, frames: nat, left: nat, b: Bindings, items: seq<Expr>,
                                         within: Expr, width: nat)
    requires BodiesWithin(env.m, width) && within == List(items)
    ensures EvalList(env, frames, left, b, items, within).steps
         <= SizeAll(items) * Geometric(width, frames) + Geometric(width, frames) - 1
    decreases frames, 1, within, 1
  {
    var g := Geometric(width, frames);
    MulLess(0, SizeAll(items), g);
    if items != [] && items[0].Atom? {
      assert items == [items[0]] + items[1..];
      SizeAllAppend([items[0]], items[1..]);
      var form := FormOf(env.m, items[0].name);
      if form.None? || form.value.InferenceOnly() {
        ActionCallStepBound(env, frames, left, b, items, within, width);
        MulLess(SizeAll(items[1..]), SizeAll(items), g);
      } else if form.value.If? || form.value.And? || form.value.Or? {
        BranchStepBound(env, frames, left, b, form.value, items, within, width);
      } else if Operands(form.value, items).Some? {
        var os := Operands(form.value, items).value;
        OperandsSmaller(form.value, items, within);
        OperandsStepBound(env, frames, left, b, os, within, width);
        OperandsSize(form.value, items);
        MulLess(SizeAll(Exprs(os)), SizeAll(items), g);
      }
    }
  }

  lemma {:induction false} BranchStepBound(env: Env, frames: nat, left: nat, b: Bindings, form: Form,
                                           items: seq<Expr>, within: Expr, width: nat)
    requires (form.If? || form.And? || form.Or?) && within == List(items) && BodiesWithin(env.m, width)
    ensures EvalBranch(env, frames, left, b, form, items, within).steps <= SizeAll(items) * Geometric(width, frames)
    decreases frames, 1, within, 0
  {
    hide Eval, Geometric, BodiesWithin, Size, SizeAll;
    var g := Geometric(width, frames);
    MulLess(0, SizeAll(items), g);
    if |items| == (if form.If? then 4 else 3) {
      var test := Read(AsBool, Eval(env, frames, left, b, items[1]));
      StepBound(env, frames, left, b, items[1], width);
      StepBound(env, frames, left - test.steps, b, items[2], width);
      SizeOfThree(items);
      Distribute(Size(items[1]), Size(items[2]), g);
      MulLess(Size(items[1]) + Size(items[2]), SizeAll(items), g);
      MulLess(Size(items[1]), SizeAll(items), g);
      if form.If? {
        StepBound(env, frames, left - test.steps, b, items[3], width);
        Distribute(Size(items[1]), Size(items[3]), g);
        MulLess(Size(items[1]) + Size(items[3]), SizeAll(items), g);
      }
    }
  }

  lemma SizeOfThree(items: seq<Expr>)
    requires |items| >= 3
    ensures Size(items[1]) + Size(items[2]) <= SizeAll(items)
    ensures |items| >= 4 ==> Size(items[1]) + Size(items[3]) <= SizeAll(items)
  {
    assert SizeAll(items) == Size(items[0]) + SizeAll(items[1..]);
    assert items[1..][1..] == items[2..] && items[2..][1..] == items[3..];
    assert SizeAll(items[1..]) == Size(items[1]) + SizeAll(items[2..]);
    assert SizeAll(items[2..]) == Size(items[2]) + SizeAll(items[3..]);
    if |items| >= 4 { assert SizeAll(items[3..]) == Size(items[3]) + SizeAll(items[3..][1..]); }
  }

  lemma {:induction false} OperandsStepBound(env: Env, frames: nat, left: nat, b: Bindings, operands: seq<Operand>,
                                             within: Expr, width: nat)
    requires (forall i | 0 <= i < |operands| :: operands[i].expr < within) && BodiesWithin(env.m, width)
    ensures EvalOperands(env, frames, left, b, operands, within).steps
              <= SizeAll(Exprs(operands)) * Geometric(width, frames)
    decreases frames, 1, within, 0, |operands|
  {
    hide EvalOperand, Geometric, BodiesWithin;
    var g := Geometric(width, frames);
    MulLess(0, SizeAll(Exprs(operands)), g);
    if operands != [] {
      assert Exprs(operands) == [operands[0].expr] + Exprs(operands[1..]);
      assert Exprs(operands)[1..] == Exprs(operands[1..]);
      Distribute(Size(operands[0].expr), SizeAll(Exprs(operands[1..])), g);
      MulLess(0, SizeAll(Exprs(operands[1..])), g);
      OperandStepBound(env, frames, left, b, operands[0], within, width);
      var first := EvalOperand(env, frames, left, b, operands[0], within);
      OperandsStepBound(env, frames, left - first.steps, b, operands[1..], within, width);
    }
  }

  lemma {:induction false} OperandStepBound(env: Env, frames: nat, left: nat, b: Bindings, operand: Operand,
                                            within: Expr, width: nat)
    requires operand.expr < within && BodiesWithin(env.m, width)
    ensures EvalOperand(env, frames, left, b, operand, within).steps <= Size(operand.expr) * Geometric(width, frames)
    decreases frames, 1, operand.expr, 3
  {
    hide Eval, Geometric, BodiesWithin, Size;
    MulLess(0, Size(operand.expr), Geometric(width, frames));
    if operand.mode != Literally { StepBound(env, frames, left, b, operand.expr, width); }
  }

  lemma {:induction false} ActionCallStepBound(env: Env, frames: nat, left: nat, b: Bindings, items: seq<Expr>,
                                               within: Expr, width: nat)
    requires items != [] && items[0].Atom? && within == List(items) && BodiesWithin(env.m, width)
    ensures EvalActionCall(env, frames, left, b, items, within).steps
         <= SizeAll(items[1..]) * Geometric(width, frames) + Geometric(width, frames) - 1
    decreases frames, 1, within, 0
  {
    hide EvalOperands, Execute, Geometric, BodiesWithin, SizeAll;
    var g := Geometric(width, frames);
    MulLess(0, SizeAll(items[1..]), g);
    var named := ActionsNamed(env.m, items[0].name);
    if |named| == 1 {
      var operands := All(Anything, items[1..]);
      assert Exprs(operands) == items[1..];
      assert forall i | 0 <= i < |operands| :: operands[i].expr in items;
      OperandsStepBound(env, frames, left, b, operands, within, width);
      var args := EvalOperands(env, frames, left, b, operands, within);
      if args.outcome.Ok? {
        ExecuteStepBound(env, frames, left - args.steps, b, Only(named), args.outcome.value, width);
      }
    }
  }

  lemma {:induction false} ExecuteStepBound(env: Env, frames: nat, left: nat, b: Bindings, key: Key, args: seq<Value>,
                                            width: nat)
    requires BodiesWithin(env.m, width)
    ensures Execute(env, frames, left, b, key, args).steps <= Geometric(width, frames) - 1
    decreases frames, 0
  {
    if frames != 0 && key in env.m.actions && env.m.actions[key].body.Some? {
      var body := env.m.actions[key].body.value;
      var parts := Equation(env.m, Some(key.1), body);
      if parts.Some? && |parts.value.0| == |args| {
        StepBound(env, frames - 1, left, Bind(b, parts.value.0, args), parts.value.1, width);
        SizeOfThree(body.items);
        MulLess(Size(parts.value.1), width, Geometric(width, frames - 1));
      }
    }
    if frames != 0 { MulLess(0, width, Geometric(width, frames - 1)); }
  }

  /** Whatever the budget, a projection takes at most `s * (1 + M + .. + M^64)` steps. */
  lemma ProjectionStepBound(env: Env, budget: nat, projection: Key, args: seq<Value>, width: nat)
    requires BodiesWithin(env.m, width) && projection in env.m.projections
    ensures ExecuteProjection(env, budget, projection, args).steps
         <= Size(env.m.projections[projection]) * Geometric(width, MAX_STACK_DEPTH)
  {
    var body := env.m.projections[projection];
    var parts := Equation(env.m, None, body);
    var g := Geometric(width, MAX_STACK_DEPTH);
    MulLess(0, Size(body), g);
    if parts.Some? && |parts.value.0| == |args| {
      StepBound(env, MAX_STACK_DEPTH, budget, Bind(map[], parts.value.0, args), parts.value.1, width);
      SizeOfThree(body.items);
      MulLess(Size(parts.value.1), Size(body), g);
    }
  }
}
