/**
  The meaning of aspect expressions: a value and a trace of host operations,
  within a step budget and a bounded number of action frames.
*/
module Evaluator {
  import opened Common
  import opened Syntax
  import opened AspectIr

  const MAX_STACK_DEPTH: nat := 64

  datatype Value = Unit | Bool(bit: bool) | Amount(amount: nat) | Name(text: string)

  /** The text of an event, before it is rendered. */
  datatype EventText = EventAtom(value: Value) | EventTuple(values: seq<Value>)

  datatype HostOp =
    | GetState(state: string, key: seq<string>)
    | GetContractState(contract: string, state: string, key: seq<string>)
    | SetState(state: string, key: seq<string>, value: Value)
    | GetRegistry(registry: string)
    | SetRegistry(registry: string, value: Value)
    | ConsumeRegistry(registry: string, value: Value)
    | EmitText(event: EventText)
    | Call(contract: string, name: string, args: seq<Value>)
    | VerifyPermit(owner: string, spender: string, asset: string, amount: nat, certificate: string)
    | VerifyBridge(source: string, id: string, recipient: string, asset: string, amount: nat, certificate: string)
    | AppendOutbox(chain: string, contract: string, id: string, recipient: string, asset: string, amount: nat)

  datatype EvalError =
    | UnknownProjection | UnknownAction | MissingActionBody | InvalidActionBody | InvalidExpression | UnknownVariable
    | StepBudgetExceeded | ArithmeticOverflow | DivisionByZero | RequireFailed | TypeMismatch | StackDepthExceeded

  datatype Context = Context(txSender: string, msgSender: string, current: string, height: nat, timestamp: nat)

  /** What an execution may read but not change. */
  datatype Env = Env(
    m: Module,
    context: Context,
    snapshot: map<(string, seq<string>), Value>,
    foreign: map<(string, string, seq<string>), Value>)

  type Bindings = map<string, Value>

  /** An execution: its outcome, the steps it charged and the operations it appended. */
  datatype Run<+T> = Run(outcome: Result<T, EvalError>, steps: nat, trace: seq<HostOp>)

  // ---------------------------------------------------------------------- atoms

  predicate IsDigit(c: char) { '0' <= c <= '9' }

  predicate AllDigits(s: string) {
    forall i | 0 <= i < |s| :: IsDigit(s[i])
  }

  function DigitsValue(s: string): nat
    requires AllDigits(s)
  {
    if s == "" then 0
    else
      assert IsDigit(s[|s| - 1]);
      DigitsValue(s[..|s| - 1]) * 10 + (s[|s| - 1] as int - '0' as int)
  }

  function ParseDigits(s: string): Option<nat> {
    if s != "" && AllDigits(s) && DigitsValue(s) <= U128_MAX then Some(DigitsValue(s)) else None
  }

  /** `str::parse::<u128>`. */
  function ParseAmount(s: string): Option<nat> {
    if s != "" && s[0] == '+' then ParseDigits(s[1..]) else ParseDigits(s)
  }

  function Decimal(n: nat): string {
    (if n < 10 then "" else Decimal(n / 10)) + [(n % 10 + '0' as int) as char]
  }

  function ReservedValue(r: Reserved, c: Context): Value {
    match r
    case TrueAtom => Bool(true)
    case FalseAtom => Bool(false)
    case TxSender => Name(c.txSender)
    case MsgSender => Name(c.msgSender)
    case CurrentContract => Name(c.current)
    case BlockHeight => Amount(c.height)
    case BlockTimestamp => Amount(c.timestamp)
  }

  function EvalAtom(env: Env, b: Bindings, a: string): Result<Value, EvalError> {
    if a != "" && a[0] == '$' then
      if a[1..] in b then Ok(b[a[1..]]) else Err(UnknownVariable)
    else if a in env.m.language.reserved then Ok(ReservedValue(env.m.language.reserved[a], env.context))
    else if ParseAmount(a).Some? then Ok(Amount(ParseAmount(a).value))
    else Ok(Name(a))
  }

  // --------------------------------------------------- how a form reads its operands

  /** What is demanded of an operand's value; `Literally` operands are names that are not evaluated. */
  datatype Mode = Anything | AsAmount | AsBool | AsName | AsKey | Literally

  datatype Operand = Operand(mode: Mode, expr: Expr)

  function Convert(mode: Mode, v: Value): Result<Value, EvalError> {
    match mode
    case AsAmount => if v.Amount? then Ok(v) else Err(TypeMismatch)
    case AsBool => if v.Bool? then Ok(v) else Err(TypeMismatch)
    case AsName => if v.Name? then Ok(v) else Err(TypeMismatch)
    case AsKey =>
      (match v
       case Unit => Err(TypeMismatch)
       case Bool(bit) => Ok(Name(if bit then "true" else "false"))
       case Amount(n) => Ok(Name(Decimal(n)))
       case Name(_) => Ok(v))
    case _ => Ok(v)
  }

  function All(mode: Mode, es: seq<Expr>): (r: seq<Operand>)
    ensures |r| == |es|
  {
    seq(|es|, i requires 0 <= i < |es| => Operand(mode, es[i]))
  }

  function Zip(modes: seq<Mode>, es: seq<Expr>): (r: seq<Operand>)
    requires |modes| == |es|
    ensures |r| == |es|
  {
    seq(|es|, i requires 0 <= i < |es| => Operand(modes[i], es[i]))
  }

  /** The operands of a form in evaluation order, or None when their number is wrong. */
  function Operands(form: Form, items: seq<Expr>): Option<seq<Operand>>
    requires items != []
  {
    var n := |items| - 1;
    match form
    case SafeAdd | SafeSub | SafeMul | SafeDiv | Less | LessEqual | Greater | GreaterEqual =>
      if n == 2 then Some(All(AsAmount, items[1..])) else None
    case Require => if n == 2 then Some(All(AsBool, items[1..2])) else None
    case Not => if n == 1 then Some(All(AsBool, items[1..])) else None
    case Equal => if n == 2 then Some(All(Anything, items[1..])) else None
    case Begin => if n >= 1 then Some(All(Anything, items[1..])) else None
    case StateGet => if n >= 1 then Some([Operand(Literally, items[1])] + All(AsKey, items[2..])) else None
    case ContractStateGet =>
      if n >= 2 then Some([Operand(AsName, items[1]), Operand(Literally, items[2])] + All(AsKey, items[3..])) else None
    case StateSet =>
      if n >= 2 then Some([Operand(Literally, items[1])] + All(AsKey, items[2..n]) + [Operand(Anything, items[n])])
      else None
    case RegistryGet => if n >= 1 then Some([Operand(Literally, items[1])]) else None
    case RegistrySet | RegistryConsume =>
      if n == 2 then Some([Operand(Literally, items[1]), Operand(Anything, items[2])]) else None
    case Emit => if n == 1 then Some(All(Anything, EventParts(items[1]))) else None
    case CallContractForm =>
      if n >= 2 then Some([Operand(AsName, items[1]), Operand(Literally, items[2])] + All(Anything, items[3..]))
      else None
    case PermitVerify =>
      if n == 5 then Some(Zip([AsName, AsName, AsName, AsAmount, AsName], items[1..])) else None
    case BridgeVerify =>
      if n == 6 then Some(Zip([AsName, AsName, AsName, AsName, AsAmount, AsName], items[1..])) else None
    case OutboxAppend =>
      if n == 6 then Some(Zip([AsName, AsName, AsName, AsName, AsName, AsAmount], items[1..])) else None
    case _ => None
  }

  /** An event given as a list is evaluated item by item without charging for the list itself. */
  function EventParts(e: Expr): seq<Expr> {
    match e case Atom(_) => [e] case List(items) => items
  }

  /** Values fit the operands they were read for. */
  predicate Fits(operands: seq<Operand>, values: seq<Value>) {
    |values| == |operands| && forall i | 0 <= i < |values| :: FitsOne(operands[i], values[i])
  }

  predicate FitsOne(operand: Operand, v: Value) {
    match operand.mode
    case AsAmount => v.Amount?
    case AsBool => v.Bool?
    case AsName | AsKey => v.Name?
    case Literally => operand.expr.Atom? && v == Name(operand.expr.name)
    case Anything => true
  }

  function Texts(values: seq<Value>): seq<string> {
    seq(|values|, i requires 0 <= i < |values| => if values[i].Name? then values[i].text else "")
  }

  function Checked(n: int): Result<Value, EvalError> {
    if 0 <= n <= U128_MAX then Ok(Amount(n)) else Err(ArithmeticOverflow)
  }

  function Snapshot(env: Env, state: string, key: seq<string>): Value {
    if (state, key) in env.snapshot then env.snapshot[(state, key)] else Amount(0)
  }

  function Foreign(env: Env, contract: string, state: string, key: seq<string>): Value {
    if (contract, state, key) in env.foreign then env.foreign[(contract, state, key)] else Amount(0)
  }

  /** Arithmetic and comparisons. */
  predicate OnAmounts(form: Form) {
    || form.SafeAdd? || form.SafeSub? || form.SafeMul? || form.SafeDiv?
    || form.Less? || form.LessEqual? || form.Greater? || form.GreaterEqual?
  }

  /** The result of a form that does no host operation. */
  function Compute(form: Form, vs: seq<Value>): Result<Value, EvalError>
    requires form.Begin? ==> vs != []
    requires form.Require? || form.Not? ==> |vs| == 1 && vs[0].Bool?
    requires form.Equal? ==> |vs| == 2
    requires OnAmounts(form) ==> |vs| == 2 && vs[0].Amount? && vs[1].Amount?
  {
    match form
    case SafeAdd => Checked(vs[0].amount + vs[1].amount)
    case SafeSub => Checked(vs[0].amount - vs[1].amount)
    case SafeMul => Checked(vs[0].amount * vs[1].amount)
    case SafeDiv => if vs[1].amount == 0 then Err(DivisionByZero) else Ok(Amount(vs[0].amount / vs[1].amount))
    case Less => Ok(Bool(vs[0].amount < vs[1].amount))
    case LessEqual => Ok(Bool(vs[0].amount <= vs[1].amount))
    case Greater => Ok(Bool(vs[0].amount > vs[1].amount))
    case GreaterEqual => Ok(Bool(vs[0].amount >= vs[1].amount))
    case Require => if vs[0].bit then Ok(Unit) else Err(RequireFailed)
    case Not => Ok(Bool(!vs[0].bit))
    case Equal => Ok(Bool(vs[0] == vs[1]))
    case Begin => Ok(vs[|vs| - 1])
    case _ => Ok(Unit)
  }

  /**
    Subtraction undoes addition and fails exactly below zero, division undoes multiplication, and the comparisons
    agree.
  */
  lemma ArithmeticLaws(a: nat, b: nat)
    requires a <= U128_MAX && b <= U128_MAX
    ensures Compute(SafeAdd, [Amount(a), Amount(b)]).Ok? ==>
              Compute(SafeSub, [Compute(SafeAdd, [Amount(a), Amount(b)]).value, Amount(b)]) == Ok(Amount(a))
    ensures Compute(SafeSub, [Amount(a), Amount(b)]).Ok?
       <==> Compute(LessEqual, [Amount(b), Amount(a)]) == Ok(Bool(true))
    ensures Compute(SafeMul, [Amount(a), Amount(b)]).Ok? && b > 0 ==>
              Compute(SafeDiv, [Compute(SafeMul, [Amount(a), Amount(b)]).value, Amount(b)]) == Ok(Amount(a))
    ensures Compute(Less, [Amount(a), Amount(b)]) == Compute(Greater, [Amount(b), Amount(a)])
    ensures Compute(LessEqual, [Amount(a), Amount(b)]) == Compute(GreaterEqual, [Amount(b), Amount(a)])
    ensures Compute(Less, [Amount(a), Amount(b)]) == Ok(Bool(true)) <==>
              Compute(LessEqual, [Amount(a), Amount(b)]) == Ok(Bool(true))
                && Compute(Equal, [Amount(a), Amount(b)]) == Ok(Bool(false))
  {
    if b > 0 { MulThenDiv(a, b); }
  }

  lemma MulThenDiv(a: nat, b: nat)
    requires b > 0
    ensures a * b / b == a
  {
    FloorFacts(a * b, b);
    FloorAtLeast(a * b, b, a);
    if a * b / b > a { MulLess(a + 1, a * b / b, b); }
  }

  /** The host operation of a form, if it does one. */
  function HostOpOf(form: Form, items: seq<Expr>, vs: seq<Value>): (r: Option<HostOp>)
    requires items != [] && Operands(form, items).Some? && Fits(Operands(form, items).value, vs)
  {
    match form
    case StateGet => Some(GetState(vs[0].text, Texts(vs[1..])))
    case ContractStateGet => Some(GetContractState(vs[0].text, vs[1].text, Texts(vs[2..])))
    case StateSet => Some(SetState(vs[0].text, Texts(vs[1..|vs| - 1]), vs[|vs| - 1]))
    case RegistryGet => Some(GetRegistry(vs[0].text))
    case RegistrySet => Some(SetRegistry(vs[0].text, vs[1]))
    case RegistryConsume => Some(ConsumeRegistry(vs[0].text, vs[1]))
    case Emit => Some(EmitText(if items[1].Atom? then EventAtom(vs[0]) else EventTuple(vs)))
    case CallContractForm => Some(Call(vs[0].text, vs[1].text, vs[2..]))
    case PermitVerify => Some(VerifyPermit(vs[0].text, vs[1].text, vs[2].text, vs[3].amount, vs[4].text))
    case BridgeVerify =>
      Some(VerifyBridge(vs[0].text, vs[1].text, vs[2].text, vs[3].text, vs[4].amount, vs[5].text))
    case OutboxAppend =>
      Some(AppendOutbox(vs[0].text, vs[1].text, vs[2].text, vs[3].text, vs[4].text, vs[5].amount))
    case _ => None
  }

  /** What the host answers: snapshots for reads, Unit for everything else. */
  function HostAnswer(env: Env, op: HostOp): Value {
    match op
    case GetState(state, key) => Snapshot(env, state, key)
    case GetContractState(contract, state, key) => Foreign(env, contract, state, key)
    case _ => Unit
  }

  /** A form applied to its operands' values. */
  function Finish(env: Env, form: Form, items: seq<Expr>, vs: seq<Value>): Run<Value>
    requires items != [] && Operands(form, items).Some? && Fits(Operands(form, items).value, vs)
  {
    var op := HostOpOf(form, items, vs);
    if op.Some? then Run(Ok(HostAnswer(env, op.value)), 0, [op.value])
    else Run(Compute(form, vs), 0, [])
  }

  // ------------------------------------------------------------------ definitions

  /** The parameter names of a signature, each written with a leading `$`. */
  function Parameters(es: seq<Expr>): Option<seq<string>> {
    if es == [] then Some([])
    else if es[0].List? || es[0].name == "" || es[0].name[0] != '$' then None
    else
      var rest := Parameters(es[1..]);
      if rest.None? then None else Some([es[0].name[1..]] + rest.value)
  }

  /** Parameters and right-hand side of `(= (name $p ..) rhs)`; with `name` absent any signature head will do. */
  function Equation(m: Module, name: Option<string>, body: Expr): Option<(seq<string>, Expr)> {
    if body.Atom? || !IsEquation(m, body.items) || body.items[1].Atom? then None
    else if name.Some? && HeadName(body.items[1]) != name then None
    else
      var signature := body.items[1].items;
      var params := Parameters(if signature == [] then [] else signature[1..]);
      if params.None? then None else Some((params.value, body.items[2]))
  }

  function Bind(b: Bindings, params: seq<string>, args: seq<Value>): Bindings
    requires |params| == |args|
    decreases |params|
  {
    if params == [] then b else Bind(b[params[0] := args[0]], params[1..], args[1..])
  }

  // ------------------------------------------------------------------- evaluation

  function Fail<T>(error: EvalError): Run<T> {
    Run(Err(error), 0, [])
  }

  /** `first` succeeded and `second` ran after it. */
  function Then<S, T>(first: Run<S>, second: Run<T>): Run<T> {
    Run(second.outcome, first.steps + second.steps, first.trace + second.trace)
  }

  /** `r` with its value read in the given mode. */
  function Read(mode: Mode, r: Run<Value>): Run<Value> {
    if r.outcome.Ok? then Run(Convert(mode, r.outcome.value), r.steps, r.trace) else r
  }

  function Charged<T>(r: Run<T>): Run<T> {
    Run(r.outcome, r.steps + 1, r.trace)
  }

  /**
    Evaluates `e` with `left` steps left in the budget and `frames` action frames
    left on the stack.
  */
  function Eval(env: Env, frames: nat, left: nat, b: Bindings, e: Expr): (r: Run<Value>)
    ensures r.steps <= left
    decreases frames, 1, e, 2
  {
    match e
    case Atom(a) => Run(EvalAtom(env, b, a), 0, [])
    case List(items) =>
      if left == 0 then Fail(StepBudgetExceeded)
      else Charged(EvalList(env, frames, left - 1, b, items, e))
  }

  /** A list whose step has been charged. */
  function EvalList(env: Env, frames: nat, left: nat, b: Bindings, items: seq<Expr>, within: Expr): (r: Run<Value>)
    requires within == List(items)
    ensures r.steps <= left
    decreases frames, 1, within, 1
  {
    if items == [] || items[0].List? then Fail(InvalidExpression)
    else
      var form := FormOf(env.m, items[0].name);
      if form.None? || form.value.InferenceOnly() then EvalActionCall(env, frames, left, b, items, within)
      else if form.value.If? || form.value.And?
        || form.value.Or? then EvalBranch(env, frames, left, b, form.value, items, within)
      else
        var operands := Operands(form.value, items);
        if operands.None? then Fail(InvalidExpression)
        else
          OperandsSmaller(form.value, items, within);
          var args := EvalOperands(env, frames, left, b, operands.value, within);
          if args.outcome.Err? then Run(Err(args.outcome.error), args.steps, args.trace)
          else Then(args, Finish(env, form.value, items, args.outcome.value))
  }

  /** The forms that evaluate only some of their operands. */
  function EvalBranch(env: Env, frames: nat, left: nat, b: Bindings, form: Form, items: seq<Expr>,
                      within: Expr): (r: Run<Value>)
    requires (form.If? || form.And? || form.Or?) && within == List(items)
    ensures r.steps <= left
    decreases frames, 1, within, 0
  {
    if |items| != (if form.If? then 4 else 3) then Fail(InvalidExpression)
    else
      var test := Read(AsBool, Eval(env, frames, left, b, items[1]));
      if test.outcome.Err? then test
      else if form.If? then
        Then(test, Eval(env, frames, left - test.steps, b, if test.outcome.value.bit then items[2] else items[3]))
      else if test.outcome.value.bit == form.Or? then test
      else Then(test, Read(AsBool, Eval(env, frames, left - test.steps, b, items[2])))
  }

  /** Operands in order, stopping at the first that fails or does not convert. */
  function EvalOperands(env: Env, frames: nat, left: nat, b: Bindings, operands: seq<Operand>,
                        within: Expr): (r: Run<seq<Value>>)
    requires forall i | 0 <= i < |operands| :: operands[i].expr < within
    ensures r.steps <= left
    ensures r.outcome.Ok? ==> Fits(operands, r.outcome.value)
    decreases frames, 1, within, 0, |operands|
  {
    if operands == [] then Run(Ok([]), 0, [])
    else
      var first := EvalOperand(env, frames, left, b, operands[0], within);
      if first.outcome.Err? then Run(Err(first.outcome.error), first.steps, first.trace)
      else
        var rest := EvalOperands(env, frames, left - first.steps, b, operands[1..], within);
        if rest.outcome.Err? then Then(first, rest)
        else Then(first, Run(Ok([first.outcome.value] + rest.outcome.value), rest.steps, rest.trace))
  }

  function EvalOperand(env: Env, frames: nat, left: nat, b: Bindings, operand: Operand, within: Expr): (r: Run<Value>)
    requires operand.expr < within
    ensures r.steps <= left
    ensures r.outcome.Ok? ==> FitsOne(operand, r.outcome.value)
    decreases frames, 1, operand.expr, 3
  {
    if operand.mode.Literally? then
      if operand.expr.Atom? then Run(Ok(Name(operand.expr.name)), 0, []) else Fail(InvalidExpression)
    else Read(operand.mode, Eval(env, frames, left, b, operand.expr))
  }

  /** A head that names exactly one action of the module is a call. */
  function EvalActionCall(env: Env, frames: nat, left: nat, b: Bindings, items: seq<Expr>,
                          within: Expr): (r: Run<Value>)
    requires items != [] && items[0].Atom? && within == List(items)
    ensures r.steps <= left
    decreases frames, 1, within, 0
  {
    var named := ActionsNamed(env.m, items[0].name);
    if |named| != 1 then Fail(InvalidExpression)
    else
      var operands := All(Anything, items[1..]);
      assert forall i | 0 <= i < |operands| :: operands[i].expr in items;
      var args := EvalOperands(env, frames, left, b, operands, within);
      if args.outcome.Err? then Run(Err(args.outcome.error), args.steps, args.trace)
      else Then(args, Execute(env, frames, left - args.steps, b, Only(named), args.outcome.value))
  }

  /** One action in a frame of its own. */
  function Execute(env: Env, frames: nat, left: nat, b: Bindings, key: Key, args: seq<Value>): (r: Run<Value>)
    ensures r.steps <= left
    decreases frames, 0
  {
    if frames == 0 then Fail(StackDepthExceeded)
    else if key !in env.m.actions then Fail(UnknownAction)
    else if env.m.actions[key].body.None? then Fail(MissingActionBody)
    else
      var parts := Equation(env.m, Some(key.1), env.m.actions[key].body.value);
      if parts.None? || |parts.value.0| != |args| then Fail(InvalidActionBody)
      else Eval(env, frames - 1, left, Bind(b, parts.value.0, args), parts.value.1)
  }

  /** The member of a singleton. */
  function Only(ks: set<Key>): (k: Key)
    requires |ks| == 1
    ensures ks == {k}
  {
    SingletonHasOne(ks);
    var k :| k in ks; k
  }

  lemma SingletonHasOne(ks: set<Key>)
    requires |ks| == 1
    ensures exists k :: k in ks
    ensures forall a, b | a in ks && b in ks :: ks == {a} && a == b
  {
    assert ks != {};
    forall a, b | a in ks && b in ks ensures ks == {a} && a == b {
      assert |ks - {a}| == 0;
    }
  }

  lemma OperandsSmaller(form: Form, items: seq<Expr>, within: Expr)
    requires items != [] && within == List(items) && Operands(form, items).Some?
    ensures var os := Operands(form, items).value; forall i | 0 <= i < |os| :: os[i].expr < within
  {
    var os := Operands(form, items).value;
    forall i | 0 <= i < |os| ensures os[i].expr < within {
      if form.Emit? {
        assert items[1] in items;
      } else {
        assert os[i].expr in items;
      }
    }
  }

  /** A call of a bundle's method through its projection. */
  function ExecuteProjection(env: Env, budget: nat, projection: Key, args: seq<Value>): (r: Run<Value>)
    ensures r.steps <= budget
  {
    if projection !in env.m.projections then Fail(UnknownProjection)
    else
      var parts := Equation(env.m, None, env.m.projections[projection]);
      if parts.None? || |parts.value.0| != |args| then Fail(InvalidActionBody)
      else Eval(env, MAX_STACK_DEPTH, budget, Bind(map[], parts.value.0, args), parts.value.1)
  }
}
