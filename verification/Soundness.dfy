/**
  Effect soundness: every host operation an execution traces is covered by what
  inference collected, through nested and shared calls.
*/
module Soundness {
  import opened Common
  import opened Syntax
  import opened Graph
  import opened AspectIr
  import opened Effects
  import opened Evaluator
  import opened Budget

  /**
    A site target read from the text admits the contract met at run time; reserved names other than the current
    contract are resolved only then.
  */
  predicate Admits(m: Module, t: SiteTarget, contract: string) {
    t.Dynamic? || t.contract == contract || t.contract in m.language.reserved
  }

  /** The facts `known` account for an operation. */
  ghost predicate Covered(m: Module, op: HostOp, known: iset<Fact>) {
    match op
    case GetState(_, _) => Effect(ReadState) in known
    case GetContractState(contract, state, _) =>
      Effect(ReadState) in known && exists t :: ReadSite(t, state) in known && Admits(m, t, contract)
    case SetState(state, _, _) => Effect(WriteState) in known && WritesState(state) in known
    case GetRegistry(registry) => Effect(ReadRegistry) in known && UsesRegistry(registry) in known
    case SetRegistry(registry, _) => Effect(WriteRegistry) in known && UsesRegistry(registry) in known
    case ConsumeRegistry(registry, _) => Effect(ConsumeRegistryGrant) in known && UsesRegistry(registry) in known
    case EmitText(_) => Effect(EmitEvent) in known
    case Call(contract, name, _) =>
      Effect(CallContract) in known && exists t :: CallSite(t, name) in known && Admits(m, t, contract)
    case VerifyPermit(_, _, _, _, _) => Effect(UsePermitCertificate) in known
    case VerifyBridge(_, _, _, _, _, _) => Effect(UseBridgeCertificate) in known
    case AppendOutbox(_, _, _, _, _, _) => Effect(CrossShardOutboxAppend) in known
  }

  ghost predicate AllCovered(m: Module, ops: seq<HostOp>, known: iset<Fact>) {
    forall op | op in ops :: Covered(m, op, known)
  }

  /**
    Inference reads the expression as the evaluator does: no equation whose left side
    is an action call (inference would take it for a definition), and no call of an
    action named like a form only inference knows.
  */
  predicate Clean(m: Module, e: Expr)
    decreases e
  {
    match e
    case Atom(_) => true
    case List(items) =>
      && !IsDefinition(m, items)
      && (var head := HeadName(e);
          head.Some? && FormOf(m, head.value).Some? && FormOf(m, head.value).value.InferenceOnly()
          ==> ActionsNamed(m, head.value) == {})
      && forall i | 0 <= i < |items| :: Clean(m, items[i])
  }

  ghost predicate CleanBodies(m: Module, reached: iset<Key>) {
    forall k | k in reached && k in m.actions && m.actions[k].body.Some? ::
      var parts := Equation(m, Some(k.1), m.actions[k].body.value);
      parts.Some? ==> Clean(m, parts.value.1)
  }

  /** `reached` is closed under calls and `known` holds the facts of its bodies. */
  ghost predicate Saturated(m: Module, known: iset<Fact>, reached: iset<Key>) {
    forall k | k in reached ::
      (forall f | f in BodyFacts(m, k) :: f in known) && (forall c | c in BodyFollows(m, k) :: c in reached)
  }

  /** Inference has accounted for the expression itself. */
  ghost predicate Accounted(m: Module, e: Expr, known: iset<Fact>, reached: iset<Key>) {
    Clean(m, e) && (forall f | f in Facts(m, e) :: f in known) && (forall k | k in Follows(m, e) :: k in reached)
  }

  ghost predicate AllAccounted(m: Module, es: seq<Expr>, known: iset<Fact>, reached: iset<Key>) {
    forall i | 0 <= i < |es| :: Accounted(m, es[i], known, reached)
  }

  /** What accounts for a list accounts for its items and its head. */
  lemma AccountedParts(m: Module, e: Expr, known: iset<Fact>, reached: iset<Key>)
    requires e.List? && Accounted(m, e, known, reached)
    ensures AllAccounted(m, e.items, known, reached)
    ensures HeadName(e).Some? ==>
              && (forall f | f in HeadFacts(m, e.items) :: f in known)
              && (forall k | k in HeadFollows(m, e.items[0].name) :: k in reached)
  {
    var parts := Descends(m, e.items);
    forall i | 0 <= i < |e.items| ensures Accounted(m, e.items[i], known, reached) {
      var x := e.items[i];
      if i > 0 || x.List? {
        assert x == parts[if e.items[0].List? then i else i - 1];
        assert x in parts;
        assert Facts(m, x) <= FactsOf(m, e, parts) && Follows(m, x) <= FollowsOf(m, e, parts);
      }
    }
  }

  lemma AppendCovered(m: Module, a: seq<HostOp>, b: seq<HostOp>, known: iset<Fact>)
    requires AllCovered(m, a, known) && AllCovered(m, b, known)
    ensures AllCovered(m, a + b, known)
  {
  }

  /** A name in target position is the contract called, unless it is reserved. */
  lemma TargetAdmits(env: Env, b: Bindings, e: Expr, contract: string)
    requires e.Atom? ==> EvalAtom(env, b, e.name) == Ok(Name(contract))
    ensures Admits(env.m, TargetOf(env.m, e), contract)
  {
  }

  /** The operation a form does is covered by the facts of its head. */
  lemma HostOpCovered(env: Env, b: Bindings, form: Form, items: seq<Expr>, vs: seq<Value>, known: iset<Fact>)
    requires items != [] && Operands(form, items).Some? && Fits(Operands(form, items).value, vs)
    requires forall f | f in OwnFacts(env.m, form, items) :: f in known
    requires (form.CallContractForm? || form.ContractStateGet?) && items[1].Atom? ==>
               EvalAtom(env, b, items[1].name) == Ok(vs[0])
    ensures var op := HostOpOf(form, items, vs); op.Some? ==> Covered(env.m, op.value, known)
  {
    var op := HostOpOf(form, items, vs);
    if op.Some? {
      assert Effect(KindOf(form)) in OwnFacts(env.m, form, items);
      var os := Operands(form, items).value;
      match form
      case StateSet =>
        assert FitsOne(os[0], vs[0]);
        assert WritesState(vs[0].text) in SiteFacts(env.m, form, items);
      case RegistryGet | RegistrySet | RegistryConsume =>
        assert FitsOne(os[0], vs[0]);
        assert UsesRegistry(vs[0].text) in SiteFacts(env.m, form, items);
      case CallContractForm =>
        assert FitsOne(os[1], vs[1]);
        TargetAdmits(env, b, items[1], vs[0].text);
        assert CallSite(TargetOf(env.m, items[1]), vs[1].text) in SiteFacts(env.m, form, items);
      case ContractStateGet =>
        assert FitsOne(os[1], vs[1]);
        TargetAdmits(env, b, items[1], vs[0].text);
        assert ReadSite(TargetOf(env.m, items[1]), vs[1].text) in SiteFacts(env.m, form, items);
      case _ =>
    }
  }

  lemma OperandsAccounted(m: Module, form: Form, items: seq<Expr>, known: iset<Fact>, reached: iset<Key>)
    requires items != [] && Operands(form, items).Some? && AllAccounted(m, items, known, reached)
    ensures AllAccounted(m, Exprs(Operands(form, items).value), known, reached)
  {
    if form.Emit? {
      assert Exprs(Operands(form, items).value) == EventParts(items[1]);
      assert Accounted(m, items[1], known, reached);
      if items[1].List? { AccountedParts(m, items[1], known, reached); }
    } else {
      OperandsAreItems(form, items);
    }
  }

  lemma {:induction false} EvalCovered(env: Env, frames: nat, left: nat, b: Bindings, e: Expr, known: iset<Fact>,
                                       reached: iset<Key>)
    requires CleanBodies(env.m, reached) && Saturated(env.m, known, reached) && Accounted(env.m, e, known, reached)
    ensures AllCovered(env.m, Eval(env, frames, left, b, e).trace, known)
    decreases frames, 1, e, 2
  {
    if e.List? && left != 0 {
      ListCovered(env, frames, left - 1, b, e.items, e, known, reached);
    }
  }

  lemma {:induction false} ListCovered(env: Env, frames: nat, left: nat, b: Bindings, items: seq<Expr>, within: Expr,
                                       known: iset<Fact>, reached: iset<Key>)
    requires CleanBodies(env.m, reached) && Saturated(env.m, known, reached) && within == List(items)
             && Accounted(env.m, within, known, reached)
    ensures AllCovered(env.m, EvalList(env, frames, left, b, items, within).trace, known)
    decreases frames, 1, within, 1
  {
    if items != [] && items[0].Atom? {
      AccountedParts(env.m, within, known, reached);
      var form := FormOf(env.m, items[0].name);
      if form.None? || form.value.InferenceOnly() {
        assert forall k | k in ActionsNamed(env.m, items[0].name) :: k in reached;
        ActionCallCovered(env, frames, left, b, items, within, known, reached);
      } else if form.value.If? || form.value.And? || form.value.Or? {
        BranchCovered(env, frames, left, b, form.value, items, within, known, reached);
      } else if Operands(form.value, items).Some? {
        OperandsSmaller(form.value, items, within);
        var os := Operands(form.value, items).value;
        OperandsAccounted(env.m, form.value, items, known, reached);
        OperandsCovered(env, frames, left, b, os, within, known, reached);
        var args := EvalOperands(env, frames, left, b, os, within);
        if args.outcome.Ok? {
          FirstOperandValue(env, frames, left, b, os, within);
          HostOpCovered(env, b, form.value, items, args.outcome.value, known);
          var last := Finish(env, form.value, items, args.outcome.value);
          AppendCovered(env.m, args.trace, last.trace, known);
        }
      }
    }
  }

  /** A leading operand that is an atom read as a name has the atom's value. */
  lemma FirstOperandValue(env: Env, frames: nat, left: nat, b: Bindings, os: seq<Operand>, within: Expr)
    requires forall i | 0 <= i < |os| :: os[i].expr < within
    requires EvalOperands(env, frames, left, b, os, within).outcome.Ok?
    ensures var vs := EvalOperands(env, frames, left, b, os, within).outcome.value;
            os != [] && os[0].mode == AsName && os[0].expr.Atom? ==> EvalAtom(env, b, os[0].expr.name) == Ok(vs[0])
  {
    if os != [] && os[0].mode == AsName && os[0].expr.Atom? {
      var first := EvalOperand(env, frames, left, b, os[0], within);
      assert first == Read(AsName, Eval(env, frames, left, b, os[0].expr));
      assert first.outcome == Ok(EvalOperands(env, frames, left, b, os, within).outcome.value[0]);
    }
  }

  lemma {:induction false} BranchCovered(env: Env, frames: nat, left: nat, b: Bindings, form: Form, items: seq<Expr>,
                                         within: Expr,
                                         known: iset<Fact>, reached: iset<Key>)
    requires (form.If? || form.And? || form.Or?) && within == List(items)
    requires CleanBodies(env.m, reached) && Saturated(env.m, known, reached)
             && AllAccounted(env.m, items, known, reached)
    ensures AllCovered(env.m, EvalBranch(env, frames, left, b, form, items, within).trace, known)
    decreases frames, 1, within, 0
  {
    hide Eval, CleanBodies, Saturated, Accounted;
    if |items| == (if form.If? then 4 else 3) {
      EvalCovered(env, frames, left, b, items[1], known, reached);
      var test := Read(AsBool, Eval(env, frames, left, b, items[1]));
      EvalCovered(env, frames, left - test.steps, b, items[2], known, reached);
      AppendCovered(env.m, test.trace, Eval(env, frames, left - test.steps, b, items[2]).trace, known);
      if form.If? {
        EvalCovered(env, frames, left - test.steps, b, items[3], known, reached);
        AppendCovered(env.m, test.trace, Eval(env, frames, left - test.steps, b, items[3]).trace, known);
      }
    }
  }

  lemma {:induction false} OperandsCovered(env: Env, frames: nat, left: nat, b: Bindings, operands: seq<Operand>,
                                           within: Expr,
                                           known: iset<Fact>, reached: iset<Key>)
    requires forall i | 0 <= i < |operands| :: operands[i].expr < within
    requires CleanBodies(env.m, reached) && Saturated(env.m, known, reached)
             && AllAccounted(env.m, Exprs(operands), known, reached)
    ensures AllCovered(env.m, EvalOperands(env, frames, left, b, operands, within).trace, known)
    decreases frames, 1, within, 0, |operands|
  {
    hide Eval, CleanBodies, Saturated, Accounted;
    if operands != [] {
      assert Exprs(operands)[0] == operands[0].expr;
      if operands[0].mode != Literally { EvalCovered(env, frames, left, b, operands[0].expr, known, reached); }
      var first := EvalOperand(env, frames, left, b, operands[0], within);
      assert AllCovered(env.m, first.trace, known);
      assert Exprs(operands[1..]) == Exprs(operands)[1..];
      OperandsCovered(env, frames, left - first.steps, b, operands[1..], within, known, reached);
      AppendCovered(env.m, first.trace, EvalOperands(env, frames, left - first.steps, b, operands[1..], within).trace,
                    known);
    }
  }

  lemma {:induction false} ActionCallCovered(env: Env, frames: nat, left: nat, b: Bindings, items: seq<Expr>,
                                             within: Expr,
                                             known: iset<Fact>, reached: iset<Key>)
    requires items != [] && items[0].Atom? && within == List(items)
    requires CleanBodies(env.m, reached) && Saturated(env.m, known, reached)
             && AllAccounted(env.m, items[1..], known, reached)
    requires forall k | k in ActionsNamed(env.m, items[0].name) :: k in reached
    ensures AllCovered(env.m, EvalActionCall(env, frames, left, b, items, within).trace, known)
    decreases frames, 1, within, 0
  {
    hide EvalOperands, Execute, CleanBodies, Saturated, Accounted;
    var named := ActionsNamed(env.m, items[0].name);
    if |named| == 1 {
      var operands := All(Anything, items[1..]);
      assert forall i | 0 <= i < |operands| :: operands[i].expr in items;
      assert Exprs(operands) == items[1..];
      OperandsCovered(env, frames, left, b, operands, within, known, reached);
      var args := EvalOperands(env, frames, left, b, operands, within);
      if args.outcome.Ok? {
        var key := Only(named);
        assert key in named;
        ExecuteCovered(env, frames, left - args.steps, b, key, args.outcome.value, known, reached);
        AppendCovered(env.m, args.trace, Execute(env, frames, left - args.steps, b, key, args.outcome.value).trace,
                      known);
      }
    }
  }

  /** What accounts for an action's body accounts for its right-hand side. */
  lemma DefinitionAccounted(m: Module, key: Key, body: Expr, rhs: Expr, known: iset<Fact>, reached: iset<Key>)
    requires CleanBodies(m, reached) && Saturated(m, known, reached) && key in reached && key in m.actions
             && m.actions[key].body == Some(body)
    requires Equation(m, Some(key.1), body).Some? && Equation(m, Some(key.1), body).value.1 == rhs
    ensures Accounted(m, rhs, known, reached)
  {
    hide Clean;
    assert key in ActionsNamed(m, key.1);
    assert IsDefinition(m, body.items);
    assert Descends(m, body.items) == [rhs];
    assert rhs in Descends(m, body.items);
    assert Facts(m, rhs) <= BodyFacts(m, key) && Follows(m, rhs) <= BodyFollows(m, key);
  }

  lemma {:induction false} ExecuteCovered(env: Env, frames: nat, left: nat, b: Bindings, key: Key, args: seq<Value>,
                                          known: iset<Fact>, reached: iset<Key>)
    requires CleanBodies(env.m, reached) && Saturated(env.m, known, reached) && key in reached
    ensures AllCovered(env.m, Execute(env, frames, left, b, key, args).trace, known)
    decreases frames, 0
  {
    hide Eval, CleanBodies, Saturated, Accounted;
    if frames != 0 && key in env.m.actions && env.m.actions[key].body.Some? {
      var body := env.m.actions[key].body.value;
      var parts := Equation(env.m, Some(key.1), body);
      if parts.Some? && |parts.value.0| == |args| {
        DefinitionAccounted(env.m, key, body, parts.value.1, known, reached);
        EvalCovered(env, frames - 1, left, Bind(b, parts.value.0, args), parts.value.1, known, reached);
      }
    }
  }

  ghost function Known(m: Module, root: Key): iset<Fact> {
    iset f | Inferred(m, root, f)
  }

  ghost function Reached(m: Module, root: Key): iset<Key> {
    iset k | Reaches(FollowGraph(m), root, k)
  }

  lemma KnownSaturated(m: Module, root: Key)
    ensures Saturated(m, Known(m, root), Reached(m, root)) && root in Reached(m, root)
  {
    var g := FollowGraph(m);
    ReachesSelf(g, root);
    forall k, c | k in Reached(m, root) && c in BodyFollows(m, k) ensures c in Reached(m, root) {
      FollowGraphSuccessors(m, k);
      ReachesEdge(g, root, k, c);
    }
  }

  /** Effect soundness: whatever an action does at run time, inference from that action has recorded. */
  lemma ActionEffectsSound(env: Env, frames: nat, left: nat, b: Bindings, root: Key, args: seq<Value>)
    requires CleanBodies(env.m, Reached(env.m, root))
    ensures AllCovered(env.m, Execute(env, frames, left, b, root, args).trace, Known(env.m, root))
  {
    KnownSaturated(env.m, root);
    ExecuteCovered(env, frames, left, b, root, args, Known(env.m, root), Reached(env.m, root));
  }

  /** The name a projection calls, when its right-hand side is a list headed by an atom. */
  function ProjectionTarget(m: Module, e: Expr): Option<string> {
    if e.List? && IsEquation(m, e.items) then HeadName(e.items[2]) else None
  }

  /** A projection that calls a non-built-in name, with arguments that do nothing the named action may not do. */
  ghost predicate DirectProjection(m: Module, e: Expr, root: Key) {
    && ProjectionTarget(m, e).Some?
    && FormOf(m, ProjectionTarget(m, e).value).None?
    && AllAccounted(m, e.items[2].items[1..], Known(m, root), Reached(m, root))
  }

  /** Arguments that are atoms, or pure expressions over atoms, do nothing at all. */
  lemma PureArguments(m: Module, e: Expr, root: Key)
    requires ProjectionTarget(m, e).Some? && FormOf(m, ProjectionTarget(m, e).value).None?
    requires forall i | 1 <= i < |e.items[2].items| ::
               var x := e.items[2].items[i]; x.Atom? || (Clean(m, x) && Facts(m, x) == {} && Follows(m, x) == {})
    ensures DirectProjection(m, e, root)
  {
    var args := e.items[2].items[1..];
    forall i | 0 <= i < |args| ensures Accounted(m, args[i], Known(m, root), Reached(m, root)) {
      assert args[i] == e.items[2].items[i + 1];
    }
  }

  /** Effect soundness for projections: the trace is covered from the one action the projection names. */
  lemma ProjectionEffectsSound(env: Env, budget: nat, projection: Key, args: seq<Value>, root: Key)
    requires CleanBodies(env.m, Reached(env.m, root)) && projection in env.m.projections
    requires DirectProjection(env.m, env.m.projections[projection], root)
    requires root in ActionsNamed(env.m, ProjectionTarget(env.m, env.m.projections[projection]).value)
    ensures AllCovered(env.m, ExecuteProjection(env, budget, projection, args).trace, Known(env.m, root))
  {
    var e := env.m.projections[projection];
    var parts := Equation(env.m, None, e);
    if parts.Some? && |parts.value.0| == |args| {
      DirectCallCovered(env, budget, Bind(map[], parts.value.0, args), e.items[2], root);
    }
  }

  lemma DirectCallCovered(env: Env, budget: nat, b: Bindings, rhs: Expr, root: Key)
    requires CleanBodies(env.m, Reached(env.m, root)) && HeadName(rhs).Some? && FormOf(env.m, HeadName(rhs).value).None?
    requires AllAccounted(env.m, rhs.items[1..], Known(env.m, root), Reached(env.m, root))
    requires root in ActionsNamed(env.m, HeadName(rhs).value)
    ensures AllCovered(env.m, Eval(env, MAX_STACK_DEPTH, budget, b, rhs).trace, Known(env.m, root))
  {
    hide EvalOperands, Execute, CleanBodies, Saturated, Accounted;
    if budget > 0 {
      var items := rhs.items;
      var named := ActionsNamed(env.m, items[0].name);
      var call := EvalActionCall(env, MAX_STACK_DEPTH, budget - 1, b, items, rhs);
      assert Eval(env, MAX_STACK_DEPTH, budget, b, rhs) == Charged(call);
      if |named| == 1 {
        assert named == {Only(named)};
        KnownSaturated(env.m, root);
        ActionCallCovered(env, MAX_STACK_DEPTH, budget - 1, b, items, rhs, Known(env.m, root), Reached(env.m, root));
      }
    }
  }
}
