/**
  Why the safety theorem has its hypotheses.  Each module here is accepted (states
  have one owner and the method's inferred effects are permitted), satisfies all the
  other hypotheses but one, and has a method that traces an operation which replay
  refuses.
*/
module Escapes {
  import opened Common
  import opened Syntax
  import opened Graph
  import opened AspectIr
  import opened Closure
  import opened Effects
  import opened Evaluator
  import opened Soundness
  import opened StaticSafety
  import Executor

  /** The module's vocabulary reads these names as the language's own does. */
  predicate Speaks(m: Module) {
    && FormOf(m, "=") == Some(Equal) && FormOf(m, "state-set!") == Some(StateSet)
    && FormOf(m, "abort") == Some(AbortForm)
    && FormOf(m, "call-contract!") == Some(CallContractForm) && FormOf(m, "go") == None && FormOf(m, "put") == None
    && "1" !in m.language.reserved
    && "tx.sender" in m.language.reserved && m.language.reserved["tx.sender"] == TxSender
  }

  lemma Vocabulary(m: Module)
    requires m.language == DETTA
    ensures Speaks(m)
  {
  }

  // ------------------------------------------------------------------ the modules

  const METHOD: Key := ("B", "m")
  const GO: Key := ("A", "go")

  function Call0(name: string): Expr {
    List([Atom(name)])
  }

  function Define(signature: Expr, rhs: Expr): Expr {
    List([Atom("="), signature, rhs])
  }

  function Action(signature: Expr, rhs: Expr): ActionDef {
    ActionDef(true, Some(Define(signature, rhs)))
  }

  const WRITE: Expr := List([Atom("state-set!"), Atom("s"), Atom("1")])

  const WRITTEN: HostOp := SetState("s", [], Amount(1))

  const CALL: Expr := List([Atom("call-contract!"), Atom("tx.sender"), Atom("ping")])

  /** Bundle `B` of aspect `A`, with one method `m`; the state `s` belongs to an aspect outside the bundle. */
  function Built(language: Language, rhs: Expr, actions: map<Key, ActionDef>, policy: Policy): Module {
    Module(language, map["A" := AspectDef({}, {}, {}, {}), "Z" := AspectDef({}, {}, {}, {})],
           map["B" := BundleDef({"A"}, {})],
           map[METHOD := Define(Call0("m"), rhs)], actions, {("Z", "s")}, {}, map[METHOD := policy])
  }

  /** `go` and a second action that writes `s`. */
  function WithWriter(signature: Expr, rhs: Expr, writer: string): map<Key, ActionDef> {
    map[GO := Action(signature, rhs), ("A", writer) := Action(Call0(writer), WRITE)]
  }

  function Allowing(effects: set<EffectKind>, calls: set<Pattern>): Policy {
    Policy(effects, calls, {}, {})
  }

  lemma ClosureIsA(m: Module, rhs: Expr, policy: Policy, a: string)
    requires m == Built(m.language, rhs, m.actions, policy)
    ensures InClosure(m, "B", a) <==> a == "A"
  {
    var bundles, aspects := BundleParents(m), AspectParents(m);
    ReachesSelf(bundles, "B");
    ReachesSelf(aspects, "A");
    assert "A" in Includes(m, "B");
    if InClosure(m, "B", a) {
      var b, x :| Reaches(bundles, "B", b) && x in Includes(m, b) && Reaches(aspects, x, a);
      ClosedHoldsReachable(bundles, {"B"}, "B", b);
      ClosedHoldsReachable(aspects, {"A"}, "A", a);
    }
  }

  /** Inference from `go` sees no body but its own. */
  lemma OnlyOwnBody(m: Module, k: Key)
    requires BodyFollows(m, GO) == {}
    ensures Reaches(FollowGraph(m), GO, k) <==> k == GO
  {
    var g := FollowGraph(m);
    ReachesSelf(g, GO);
    FollowGraphSuccessors(m, GO);
    if Reaches(g, GO, k) { ClosedHoldsReachable(g, {GO}, GO, k); }
  }

  /** Such a module is accepted when the policy permits what the body of `go` says. */
  lemma Accepted(m: Module, rhs: Expr, actions: map<Key, ActionDef>, policy: Policy)
    requires m == Built(m.language, rhs, actions, policy) && FormOf(m, "=") == Some(Equal)
    requires GO in actions && HeadName(rhs) == Some("go") && BodyFollows(m, GO) == {} && policy.invariants == {}
    requires forall f | f in BodyFacts(m, GO) :: Permitted(m, "B", policy, f)
    ensures SingleOwner(m) && ProjectionSafe(m, METHOD, GO)
  {
    hide Permitted, Facts, Follows;
    ClosureIsA(m, rhs, policy, "A");
    forall k | Reaches(FollowGraph(m), GO, k) ensures k == GO { OnlyOwnBody(m, k); }
  }

  /** A write of `s` is refused: no aspect of the bundle declares it. */
  lemma WriteRefused(m: Module, rhs: Expr, policy: Policy, contract: string)
    requires m == Built(m.language, rhs, m.actions, policy)
    ensures !Unrefusable(m, "B", policy, contract, WRITTEN)
  {
    ClosureIsA(m, rhs, policy, "Z");
    assert Executor.OwnersOf(m, "B", "s") == {};
  }

  /** What the definition of `go` says is what its right-hand side says. */
  lemma GoFacts(m: Module, signature: Expr, body: Expr)
    requires FormOf(m, "=") == Some(Equal) && GO in m.actions && m.actions[GO] == Action(signature, body)
    requires HeadName(signature) == Some("go")
    ensures BodyFacts(m, GO) == Facts(m, body) && BodyFollows(m, GO) == Follows(m, body)
  {
    var e := Define(signature, body);
    assert GO in ActionsNamed(m, "go");
    assert IsDefinition(m, e.items) && Descends(m, e.items) == [body];
    assert FactsOf(m, e, [body]) == Facts(m, body) + FactsOf(m, e, [body][1..]);
    assert FollowsOf(m, e, [body]) == Follows(m, body) + FollowsOf(m, e, [body][1..]);
  }

  /** A clean right-hand side of `go` is all the cleanliness the method needs. */
  lemma CleanGo(m: Module, signature: Expr, body: Expr)
    requires FormOf(m, "=") == Some(Equal) && GO in m.actions && m.actions[GO] == Action(signature, body)
    requires HeadName(signature) == Some("go") && BodyFollows(m, GO) == {}
    ensures Clean(m, body) ==> CleanBodies(m, Reached(m, GO))
    ensures !Clean(m, body) && Equation(m, Some("go"), Define(signature, body)).Some? ==>
              !CleanBodies(m, Reached(m, GO))
  {
    hide Clean, Follows;
    OnlyOwnBody(m, GO);
    forall k | Reaches(FollowGraph(m), GO, k) ensures k == GO { OnlyOwnBody(m, k); }
  }

  /** A method that calls `go` without arguments is direct. */
  lemma PlainIsDirect(m: Module, actions: map<Key, ActionDef>, policy: Policy)
    requires m == Built(m.language, Call0("go"), actions, policy) && Speaks(m)
    ensures DirectProjection(m, m.projections[METHOD], GO)
  {
    PureArguments(m, m.projections[METHOD], GO);
  }

  // ------------------------------------------------------------------ evaluation

  lemma OneIsAmount(env: Env, b: Bindings)
    requires "1" !in env.m.language.reserved
    ensures EvalAtom(env, b, "1") == Ok(Amount(1))
  {
    assert "1"[..0] == "";
    assert DigitsValue("1") == 1;
  }

  lemma NoOperands(env: Env, frames: nat, left: nat, b: Bindings, os: seq<Operand>, within: Expr)
    requires os == []
    ensures EvalOperands(env, frames, left, b, os, within) == Run(Ok([]), 0, [])
  {
  }

  /** A first operand, followed by operands that take no step and trace nothing. */
  lemma FirstOperand(env: Env, frames: nat, left: nat, b: Bindings, os: seq<Operand>, within: Expr,
                     first: Run<Value>, vs: seq<Value>)
    requires os != [] && forall i | 0 <= i < |os| :: os[i].expr < within
    requires EvalOperand(env, frames, left, b, os[0], within) == first && first.outcome.Ok?
    requires EvalOperands(env, frames, left - first.steps, b, os[1..], within) == Run(Ok(vs), 0, [])
    ensures EvalOperands(env, frames, left, b, os, within)
              == Run(Ok([first.outcome.value] + vs), first.steps, first.trace)
  {
    hide EvalOperand;
    assert first.trace + [] == first.trace;
  }

  /** An operand that itself takes no step and traces nothing. */
  lemma QuietOperand(env: Env, frames: nat, left: nat, b: Bindings, os: seq<Operand>, within: Expr, v: Value,
                     vs: seq<Value>)
    requires os != [] && forall i | 0 <= i < |os| :: os[i].expr < within
    requires EvalOperand(env, frames, left, b, os[0], within) == Run(Ok(v), 0, [])
    requires EvalOperands(env, frames, left, b, os[1..], within) == Run(Ok(vs), 0, [])
    ensures EvalOperands(env, frames, left, b, os, within) == Run(Ok([v] + vs), 0, [])
  {
    hide EvalOperand, EvalOperands;
    FirstOperand(env, frames, left, b, os, within, Run(Ok(v), 0, []), vs);
  }

  lemma WriteOperands(env: Env, frames: nat, left: nat, b: Bindings, os: seq<Operand>)
    requires Speaks(env.m) && os == [Operand(Literally, Atom("s")), Operand(Anything, Atom("1"))]
    requires forall i | 0 <= i < |os| :: os[i].expr < WRITE
    ensures EvalOperands(env, frames, left, b, os, WRITE) == Run(Ok([Name("s"), Amount(1)]), 0, [])
  {
    hide EvalOperands;
    OneIsAmount(env, b);
    assert Eval(env, frames, left, b, Atom("1")) == Run(Ok(Amount(1)), 0, []);
    NoOperands(env, frames, left, b, os[1..][1..], WRITE);
    QuietOperand(env, frames, left, b, os[1..], WRITE, Amount(1), []);
    assert [Amount(1)] + [] == [Amount(1)];
    QuietOperand(env, frames, left, b, os, WRITE, Name("s"), [Amount(1)]);
    assert [Name("s")] + [Amount(1)] == [Name("s"), Amount(1)];
  }

  /** The write itself. */
  lemma WriteRuns(env: Env, frames: nat, left: nat, b: Bindings)
    requires Speaks(env.m) && left >= 1
    ensures Eval(env, frames, left, b, WRITE) == Run(Ok(Unit), 1, [WRITTEN])
  {
    hide EvalOperands;
    var items := WRITE.items;
    var os := Operands(StateSet, items).value;
    OperandsSmaller(StateSet, items, WRITE);
    assert os == [Operand(Literally, items[1]), Operand(Anything, items[2])];
    WriteOperands(env, frames, left - 1, b, os);
    assert HostOpOf(StateSet, items, [Name("s"), Amount(1)]) == Some(WRITTEN);
    assert [] + [WRITTEN] == [WRITTEN];
  }

  lemma CallOperands(env: Env, frames: nat, left: nat, b: Bindings, os: seq<Operand>)
    requires Speaks(env.m) && os == [Operand(AsName, Atom("tx.sender")), Operand(Literally, Atom("ping"))]
    requires forall i | 0 <= i < |os| :: os[i].expr < CALL
    ensures EvalOperands(env, frames, left, b, os, CALL) == Run(Ok([Name(env.context.txSender), Name("ping")]), 0, [])
  {
    hide EvalOperands;
    NoOperands(env, frames, left, b, os[1..][1..], CALL);
    QuietOperand(env, frames, left, b, os[1..], CALL, Name("ping"), []);
    assert [Name("ping")] + [] == [Name("ping")];
    assert Eval(env, frames, left, b, Atom("tx.sender")) == Run(Ok(Name(env.context.txSender)), 0, []);
    QuietOperand(env, frames, left, b, os, CALL, Name(env.context.txSender), [Name("ping")]);
    assert [Name(env.context.txSender)] + [Name("ping")] == [Name(env.context.txSender), Name("ping")];
  }

  /** The call goes to whoever sent the transaction. */
  lemma CallRuns(env: Env, frames: nat, left: nat, b: Bindings)
    requires Speaks(env.m) && left >= 1
    ensures Eval(env, frames, left, b, CALL) == Run(Ok(Unit), 1, [Call(env.context.txSender, "ping", [])])
  {
    hide EvalOperands;
    var items, op := CALL.items, Call(env.context.txSender, "ping", []);
    var os := Operands(CallContractForm, items).value;
    OperandsSmaller(CallContractForm, items, CALL);
    assert os == [Operand(AsName, items[1]), Operand(Literally, items[2])];
    CallOperands(env, frames, left - 1, b, os);
    assert [Name(env.context.txSender), Name("ping")][2..] == [];
    assert HostOpOf(CallContractForm, items, [Name(env.context.txSender), Name("ping")]) == Some(op);
    assert [] + [op] == [op];
  }

  /** A call of an action without parameters runs its right-hand side. */
  lemma ActionRuns(env: Env, frames: nat, left: nat, b: Bindings, callee: string, rhs: Expr)
    requires FormOf(env.m, "=") == Some(Equal) && left >= 1 && frames >= 1
    requires ActionsNamed(env.m, callee) == {("A", callee)}
             && env.m.actions[("A", callee)] == Action(Call0(callee), rhs)
    requires FormOf(env.m, callee).None? || FormOf(env.m, callee).value.InferenceOnly()
    ensures Eval(env, frames, left, b, Call0(callee)) == Charged(Eval(env, frames - 1, left - 1, b, rhs))
  {
    hide Eval, Execute, EvalActionCall;
    CalleeRuns(env, frames, left - 1, b, callee, rhs);
    CallIsExecute(env, frames, left - 1, b, callee);
    ListIsCall(env, frames, left, b, callee);
  }

  lemma ListIsCall(env: Env, frames: nat, left: nat, b: Bindings, callee: string)
    requires left >= 1 && (FormOf(env.m, callee).None? || FormOf(env.m, callee).value.InferenceOnly())
    ensures Eval(env, frames, left, b, Call0(callee))
         == Charged(EvalActionCall(env, frames, left - 1, b, Call0(callee).items, Call0(callee)))
  {
    hide EvalActionCall;
  }

  lemma CallIsExecute(env: Env, frames: nat, left: nat, b: Bindings, callee: string)
    requires ActionsNamed(env.m, callee) == {("A", callee)}
    ensures EvalActionCall(env, frames, left, b, Call0(callee).items, Call0(callee))
         == Execute(env, frames, left, b, ("A", callee), [])
  {
    hide Execute;
    var run := Execute(env, frames, left, b, ("A", callee), []);
    assert All(Anything, Call0(callee).items[1..]) == [];
    assert EvalOperands(env, frames, left, b, [], Call0(callee)) == Run(Ok([]), 0, []);
    assert [] + run.trace == run.trace;
  }

  lemma CalleeRuns(env: Env, frames: nat, left: nat, b: Bindings, callee: string, rhs: Expr)
    requires FormOf(env.m, "=") == Some(Equal) && frames >= 1 && ("A", callee) in env.m.actions
    requires env.m.actions[("A", callee)] == Action(Call0(callee), rhs)
    ensures Execute(env, frames, left, b, ("A", callee), []) == Eval(env, frames - 1, left, b, rhs)
  {
    hide Eval;
    var body := env.m.actions[("A", callee)].body.value;
    assert body.items[1].items[1..] == [];
    assert Equation(env.m, Some(callee), body) == Some(([], rhs));
  }

  /** The method runs its right-hand side. */
  lemma MethodRuns(env: Env, budget: nat, rhs: Expr, policy: Policy)
    requires FormOf(env.m, "=") == Some(Equal) && env.m == Built(env.m.language, rhs, env.m.actions, policy)
    ensures ExecuteProjection(env, budget, METHOD, []) == Eval(env, MAX_STACK_DEPTH, budget, map[], rhs)
  {
    hide Eval;
    assert Call0("m").items[1..] == [];
    assert Equation(env.m, None, env.m.projections[METHOD]) == Some(([], rhs));
  }

  /** A method that calls `go` without arguments runs the body of `go`. */
  lemma GoRuns(env: Env, budget: nat, body: Expr, policy: Policy)
    requires Speaks(env.m) && env.m == Built(env.m.language, Call0("go"), env.m.actions, policy) && budget >= 1
    requires ActionsNamed(env.m, "go") == {GO} && env.m.actions[GO] == Action(Call0("go"), body)
    ensures ExecuteProjection(env, budget, METHOD, [])
              == Charged(Eval(env, MAX_STACK_DEPTH - 1, budget - 1, map[], body))
  {
    hide Eval, ExecuteProjection;
    MethodRuns(env, budget, Call0("go"), policy);
    ActionRuns(env, MAX_STACK_DEPTH, budget, map[], "go", body);
  }

  /** The verifier accepts `m`, its method runs to the end, and `op`, which replay refuses, is in its trace. */
  ghost predicate AcceptedButRefused(env: Env, op: HostOp) {
    var m, run := env.m, ExecuteProjection(env, 10, METHOD, []);
    && m.language == DETTA && SingleOwner(m) && ProjectionSafe(m, METHOD, GO)
    && run.outcome.Ok? && op in run.trace && !Unrefusable(m, "B", m.policies[METHOD], env.context.current, op)
  }

  const SOME_CALL: Context := Context("u", "u", "k", 0, 0)

  // ------------------------------------------------- an action named like a form

  /**
    `(= (go) (abort))` with an action called `abort`: inference takes the head for a form, the evaluator
    for a call.
  */
  lemma ActionNamedLikeForm() returns (env: Env)
    ensures AcceptedButRefused(env, WRITTEN) && !CleanBodies(env.m, Reached(env.m, GO))
    ensures SitesResolved(env.m, env.m.policies[METHOD], Known(env.m, GO))
            && DirectProjection(env.m, env.m.projections[METHOD], GO)
  {
    hide Speaks, Eval, ExecuteProjection, CleanBodies, SitesResolved, DirectProjection, ProjectionSafe, Unrefusable;
    var policy := Allowing({Abort}, {});
    var m := Built(DETTA, Call0("go"), WithWriter(Call0("go"), Call0("abort"), "abort"), policy);
    env := Env(m, SOME_CALL, map[], map[]);
    Vocabulary(m);
    AbortAccepted(m, policy);
    AbortRuns(env, policy);
    WriteRefused(m, Call0("go"), policy, "k");
  }

  lemma AbortAccepted(m: Module, policy: Policy)
    requires m == Built(m.language, Call0("go"), WithWriter(Call0("go"), Call0("abort"), "abort"), policy)
    requires Speaks(m) && policy == Allowing({Abort}, {})
    ensures SingleOwner(m) && ProjectionSafe(m, METHOD, GO) && !CleanBodies(m, Reached(m, GO))
    ensures SitesResolved(m, policy, Known(m, GO)) && DirectProjection(m, m.projections[METHOD], GO)
  {
    hide CleanBodies, SitesResolved, DirectProjection, ProjectionSafe, Clean, Facts, Follows;
    var abort := Call0("abort");
    AbortFacts(m);
    GoFacts(m, Call0("go"), abort);
    Accepted(m, Call0("go"), m.actions, policy);
    assert ("A", "abort") in ActionsNamed(m, "abort");
    AbortUnclean(m);
    assert Call0("go").items[1..] == [];
    CleanGo(m, Call0("go"), abort);
    PermittedKnown(m, policy);
    UnreservedResolves(m, "B", policy, Known(m, GO));
    PlainIsDirect(m, m.actions, policy);
  }

  lemma PermittedKnown(m: Module, policy: Policy)
    requires METHOD in m.policies && m.policies[METHOD] == policy && ProjectionSafe(m, METHOD, GO)
    ensures forall f | f in Known(m, GO) :: Permitted(m, "B", policy, f)
  {
  }

  lemma AbortUnclean(m: Module)
    requires Speaks(m) && ActionsNamed(m, "abort") != {}
    ensures !Clean(m, Call0("abort"))
  {
  }

  lemma AbortFacts(m: Module)
    requires Speaks(m)
    ensures Facts(m, Call0("abort")) == {Effect(Abort)} && Follows(m, Call0("abort")) == {}
  {
    var e := Call0("abort");
    assert Descends(m, e.items) == [];
  }

  lemma AbortRuns(env: Env, policy: Policy)
    requires env.m == Built(env.m.language, Call0("go"), WithWriter(Call0("go"), Call0("abort"), "abort"), policy)
             && Speaks(env.m)
    ensures ExecuteProjection(env, 10, METHOD, []) == Run(Ok(Unit), 3, [WRITTEN])
  {
    hide Eval, ExecuteProjection;
    assert ActionsNamed(env.m, "abort") == {("A", "abort")} && ActionsNamed(env.m, "go") == {GO};
    GoRuns(env, 10, Call0("abort"), policy);
    ActionRuns(env, MAX_STACK_DEPTH - 1, 9, map[], "abort", WRITE);
    WriteRuns(env, MAX_STACK_DEPTH - 2, 8, map[]);
  }

  // --------------------------------------------------------- a nested equation

  const INNER: Expr := Define(Call0("put"), Atom("1"))

  /**
    `(= (go) (= (put) 1))`: inference takes the inner equation for a definition, the evaluator compares
    both sides.
  */
  lemma NestedEquation() returns (env: Env)
    ensures AcceptedButRefused(env, WRITTEN) && !CleanBodies(env.m, Reached(env.m, GO))
    ensures SitesResolved(env.m, env.m.policies[METHOD], Known(env.m, GO))
            && DirectProjection(env.m, env.m.projections[METHOD], GO)
  {
    hide Speaks, Eval, ExecuteProjection, CleanBodies, SitesResolved, DirectProjection, ProjectionSafe, Unrefusable;
    var policy := Allowing({}, {});
    var m := Built(DETTA, Call0("go"), WithWriter(Call0("go"), INNER, "put"), policy);
    env := Env(m, SOME_CALL, map[], map[]);
    Vocabulary(m);
    InnerAccepted(m, policy);
    InnerRuns(env, policy);
    WriteRefused(m, Call0("go"), policy, "k");
  }

  lemma InnerAccepted(m: Module, policy: Policy)
    requires m == Built(m.language, Call0("go"), WithWriter(Call0("go"), INNER, "put"), policy)
    requires Speaks(m) && policy == Allowing({}, {})
    ensures SingleOwner(m) && ProjectionSafe(m, METHOD, GO) && !CleanBodies(m, Reached(m, GO))
    ensures SitesResolved(m, policy, Known(m, GO)) && DirectProjection(m, m.projections[METHOD], GO)
  {
    hide CleanBodies, SitesResolved, DirectProjection, ProjectionSafe, Clean, Facts, Follows;
    assert ("A", "put") in ActionsNamed(m, "put");
    InnerFacts(m);
    GoFacts(m, Call0("go"), INNER);
    Accepted(m, Call0("go"), m.actions, policy);
    InnerUnclean(m);
    assert Call0("go").items[1..] == [];
    CleanGo(m, Call0("go"), INNER);
    PermittedKnown(m, policy);
    UnreservedResolves(m, "B", policy, Known(m, GO));
    PlainIsDirect(m, m.actions, policy);
  }

  lemma InnerUnclean(m: Module)
    requires Speaks(m) && ActionsNamed(m, "put") != {}
    ensures !Clean(m, INNER)
  {
  }

  lemma InnerFacts(m: Module)
    requires Speaks(m) && ActionsNamed(m, "put") != {}
    ensures Facts(m, INNER) == {} && Follows(m, INNER) == {}
  {
    assert Descends(m, INNER.items) == [Atom("1")];
    assert FactsOf(m, INNER, [Atom("1")]) == Facts(m, Atom("1")) + FactsOf(m, INNER, [Atom("1")][1..]);
    assert FollowsOf(m, INNER, [Atom("1")]) == Follows(m, Atom("1")) + FollowsOf(m, INNER, [Atom("1")][1..]);
  }

  lemma InnerRuns(env: Env, policy: Policy)
    requires env.m == Built(env.m.language, Call0("go"), WithWriter(Call0("go"), INNER, "put"), policy) && Speaks(env.m)
    ensures ExecuteProjection(env, 10, METHOD, []) == Run(Ok(Bool(false)), 4, [WRITTEN])
  {
    hide Eval, ExecuteProjection;
    assert ActionsNamed(env.m, "put") == {("A", "put")} && ActionsNamed(env.m, "go") == {GO};
    GoRuns(env, 10, INNER, policy);
    ComparisonRuns(env, MAX_STACK_DEPTH - 1, 9);
  }

  lemma ComparisonRuns(env: Env, frames: nat, left: nat)
    requires Speaks(env.m) && ActionsNamed(env.m, "put") == {("A", "put")}
             && env.m.actions[("A", "put")] == Action(Call0("put"), WRITE)
    requires frames >= 1 && left >= 3
    ensures Eval(env, frames, left, map[], INNER) == Run(Ok(Bool(false)), 3, [WRITTEN])
  {
    hide EvalOperands, EvalOperand, Execute;
    var items := INNER.items;
    var os := All(Anything, items[1..]);
    assert os == [Operand(Anything, items[1]), Operand(Anything, items[2])];
    OperandsSmaller(Equal, items, INNER);
    PutOperand(env, frames, left - 1, os[0], INNER);
    OneOperand(env, frames, left - 3, os[1..], INNER);
    FirstOperand(env, frames, left - 1, map[], os, INNER, Run(Ok(Unit), 2, [WRITTEN]), [Amount(1)]);
    assert [Unit] + [Amount(1)] == [Unit, Amount(1)];
    assert [WRITTEN] + [] == [WRITTEN];
  }

  /** `(put)` as an operand. */
  lemma PutOperand(env: Env, frames: nat, left: nat, o: Operand, within: Expr)
    requires Speaks(env.m) && ActionsNamed(env.m, "put") == {("A", "put")}
             && env.m.actions[("A", "put")] == Action(Call0("put"), WRITE)
    requires frames >= 1 && left >= 2 && o == Operand(Anything, Call0("put")) && o.expr < within
    ensures EvalOperand(env, frames, left, map[], o, within) == Run(Ok(Unit), 2, [WRITTEN])
  {
    hide Eval;
    WriteRuns(env, frames - 1, left - 1, map[]);
    ActionRuns(env, frames, left, map[], "put", WRITE);
  }

  lemma OneOperand(env: Env, frames: nat, left: nat, os: seq<Operand>, within: Expr)
    requires Speaks(env.m) && os == [Operand(Anything, Atom("1"))] && os[0].expr < within
    ensures EvalOperands(env, frames, left, map[], os, within) == Run(Ok([Amount(1)]), 0, [])
  {
    hide EvalOperands;
    OneIsAmount(env, map[]);
    assert Eval(env, frames, left, map[], Atom("1")) == Run(Ok(Amount(1)), 0, []);
    NoOperands(env, frames, left, map[], os[1..], within);
    QuietOperand(env, frames, left, map[], os, within, Amount(1), []);
    assert [Amount(1)] + [] == [Amount(1)];
  }

  // -------------------------------------------- a reserved atom in an allowlist

  /**
    `(= (go) (call-contract! tx.sender ping))` under an allowlist that names `tx.sender`: the text of the site
    and the text of the allowlist agree, but the contract called is the sender's.
  */
  lemma ReservedTarget() returns (env: Env)
    ensures AcceptedButRefused(env, Call("u", "ping", []))
            && !SitesResolved(env.m, env.m.policies[METHOD], Known(env.m, GO))
    ensures CleanBodies(env.m, Reached(env.m, GO)) && DirectProjection(env.m, env.m.projections[METHOD], GO)
  {
    hide Speaks, Eval, ExecuteProjection, CleanBodies, SitesResolved, DirectProjection, ProjectionSafe;
    var policy := Allowing({CallContract}, {Pattern(ExactContract("tx.sender"), "ping")});
    var m := Built(DETTA, Call0("go"), map[GO := Action(Call0("go"), CALL)], policy);
    env := Env(m, SOME_CALL, map[], map[]);
    Vocabulary(m);
    CallAccepted(m, policy);
    GoRuns(env, 10, CALL, policy);
    CallRuns(env, MAX_STACK_DEPTH - 1, 9, map[]);
    assert !Executor.Allows(policy.calls, "u", "ping");
  }

  lemma CallAccepted(m: Module, policy: Policy)
    requires m == Built(m.language, Call0("go"), map[GO := Action(Call0("go"), CALL)], policy) && Speaks(m)
    requires policy == Allowing({CallContract}, {Pattern(ExactContract("tx.sender"), "ping")})
    ensures SingleOwner(m) && ProjectionSafe(m, METHOD, GO) && !SitesResolved(m, policy, Known(m, GO))
    ensures CleanBodies(m, Reached(m, GO)) && DirectProjection(m, m.projections[METHOD], GO)
    ensures ActionsNamed(m, "go") == {GO}
  {
    hide CleanBodies, DirectProjection, ProjectionSafe, Clean, Facts, Follows;
    CallFacts(m);
    GoFacts(m, Call0("go"), CALL);
    var site := Pattern(ExactContract("tx.sender"), "ping");
    assert site in policy.calls;
    Accepted(m, Call0("go"), m.actions, policy);
    OnlyOwnBody(m, GO);
    assert Inferred(m, GO, CallSite(Fixed("tx.sender"), "ping"));
    CallClean(m);
    CleanGo(m, Call0("go"), CALL);
    PlainIsDirect(m, m.actions, policy);
  }

  lemma CallClean(m: Module)
    requires Speaks(m)
    ensures Clean(m, CALL)
  {
  }

  lemma CallFacts(m: Module)
    requires Speaks(m)
    ensures Facts(m, CALL) == {Effect(CallContract), CallSite(Fixed("tx.sender"), "ping")} && Follows(m, CALL) == {}
  {
    var atoms := [Atom("tx.sender"), Atom("ping")];
    assert Descends(m, CALL.items) == atoms;
    AtomsSayNothing(m, CALL, atoms);
    assert AtomAt(CALL.items, 2) == {"ping"};
    assert SiteFacts(m, CallContractForm, CALL.items) == {CallSite(TargetOf(m, CALL.items[1]), "ping")};
    assert "tx.sender"[0] != '$';
    assert TargetOf(m, CALL.items[1]) == Fixed("tx.sender");
  }

  lemma {:induction false} AtomsSayNothing(m: Module, within: Expr, es: seq<Expr>)
    requires forall i | 0 <= i < |es| :: es[i] < within && es[i].Atom?
    ensures FactsOf(m, within, es) == {} && FollowsOf(m, within, es) == {}
  {
    if es != [] { AtomsSayNothing(m, within, es[1..]); }
  }

  // ------------------------------------------ effects in a projection's arguments

  const TAKES: Expr := List([Atom("go"), Atom("$x")])

  const WITH_PUT: Expr := List([Atom("go"), Call0("put")])

  /** `(= (m) (go (put)))`: inference starts at the body of `go` and never sees the argument. */
  lemma EffectfulArgument() returns (env: Env)
    ensures AcceptedButRefused(env, WRITTEN) && !DirectProjection(env.m, env.m.projections[METHOD], GO)
    ensures CleanBodies(env.m, Reached(env.m, GO)) && SitesResolved(env.m, env.m.policies[METHOD], Known(env.m, GO))
  {
    hide Speaks, Eval, ExecuteProjection, CleanBodies, SitesResolved, DirectProjection, ProjectionSafe, Unrefusable;
    var policy := Allowing({}, {});
    var m := Built(DETTA, WITH_PUT, WithWriter(TAKES, Atom("1"), "put"), policy);
    env := Env(m, SOME_CALL, map[], map[]);
    Vocabulary(m);
    ArgumentAccepted(m, policy);
    ArgumentRuns(env, policy);
    WriteRefused(m, WITH_PUT, policy, "k");
  }

  lemma ArgumentAccepted(m: Module, policy: Policy)
    requires m == Built(m.language, WITH_PUT, WithWriter(TAKES, Atom("1"), "put"), policy)
    requires Speaks(m) && policy == Allowing({}, {})
    ensures SingleOwner(m) && ProjectionSafe(m, METHOD, GO) && !DirectProjection(m, m.projections[METHOD], GO)
    ensures CleanBodies(m, Reached(m, GO)) && SitesResolved(m, policy, Known(m, GO))
  {
    hide CleanBodies, SitesResolved, ProjectionSafe;
    GoFacts(m, TAKES, Atom("1"));
    Accepted(m, WITH_PUT, m.actions, policy);
    CleanGo(m, TAKES, Atom("1"));
    PermittedKnown(m, policy);
    UnreservedResolves(m, "B", policy, Known(m, GO));
    PutFollows(m);
    OnlyOwnBody(m, ("A", "put"));
    assert WITH_PUT.items[1..][0] == Call0("put");
    assert !Accounted(m, Call0("put"), Known(m, GO), Reached(m, GO));
  }

  lemma PutFollows(m: Module)
    requires Speaks(m) && ("A", "put") in m.actions
    ensures ("A", "put") in Follows(m, Call0("put"))
  {
    var e := Call0("put");
    assert Descends(m, e.items) == [];
    assert ("A", "put") in HeadFollows(m, "put");
  }

  lemma ArgumentRuns(env: Env, policy: Policy)
    requires env.m == Built(env.m.language, WITH_PUT, WithWriter(TAKES, Atom("1"), "put"), policy) && Speaks(env.m)
    ensures ExecuteProjection(env, 10, METHOD, []) == Run(Ok(Amount(1)), 3, [WRITTEN])
  {
    hide Eval, EvalOperands, EvalOperand, Execute, ExecuteProjection;
    assert ActionsNamed(env.m, "put") == {("A", "put")} && ActionsNamed(env.m, "go") == {GO};
    MethodRuns(env, 10, WITH_PUT, policy);
    var os := All(Anything, WITH_PUT.items[1..]);
    assert os == [Operand(Anything, Call0("put"))] && WITH_PUT.items[1] in WITH_PUT.items;
    PutOperand(env, MAX_STACK_DEPTH, 9, os[0], WITH_PUT);
    NoOperands(env, MAX_STACK_DEPTH, 7, map[], os[1..], WITH_PUT);
    FirstOperand(env, MAX_STACK_DEPTH, 9, map[], os, WITH_PUT, Run(Ok(Unit), 2, [WRITTEN]), []);
    assert [Unit] + [] == [Unit];
    TakesRuns(env, MAX_STACK_DEPTH, 7);
    GoCall(env, 10, os);
  }

  lemma TakesRuns(env: Env, frames: nat, left: nat)
    requires Speaks(env.m) && frames >= 1 && GO in env.m.actions && env.m.actions[GO] == Action(TAKES, Atom("1"))
    ensures Execute(env, frames, left, map[], GO, [Unit]) == Run(Ok(Amount(1)), 0, [])
  {
    var parameters := TAKES.items[1..];
    assert parameters == [Atom("$x")] && parameters[1..] == [];
    assert "$x"[1..] == "x" && ["x"] + [] == ["x"];
    assert Parameters(parameters) == Some(["x"]);
    OneIsAmount(env, Bind(map[], ["x"], [Unit]));
  }

  lemma GoCall(env: Env, left: nat, os: seq<Operand>)
    requires Speaks(env.m) && ActionsNamed(env.m, "go") == {GO} && left >= 4
    requires os == All(Anything, WITH_PUT.items[1..]) && forall i | 0 <= i < |os| :: os[i].expr < WITH_PUT
    requires EvalOperands(env, MAX_STACK_DEPTH, left - 1, map[], os, WITH_PUT) == Run(Ok([Unit]), 2, [WRITTEN])
    requires Execute(env, MAX_STACK_DEPTH, left - 3, map[], GO, [Unit]) == Run(Ok(Amount(1)), 0, [])
    ensures Eval(env, MAX_STACK_DEPTH, left, map[], WITH_PUT) == Run(Ok(Amount(1)), 3, [WRITTEN])
  {
    hide EvalOperands, Execute;
    assert [WRITTEN] + [] == [WRITTEN];
    assert EvalActionCall(env, MAX_STACK_DEPTH, left - 1, map[], WITH_PUT.items, WITH_PUT)
             == Run(Ok(Amount(1)), 2, [WRITTEN]);
  }
}
