/** What the module verifier accepts cannot be refused at run time. */
module StaticSafety {
  import opened Common
  import opened Syntax
  import opened AspectIr
  import opened Closure
  import opened Effects
  import opened Evaluator
  import opened Graph
  import opened Soundness
  import opened Ledger
  import opened Executor

  // ------------------------------------------------------------ what is verified

  /** Every state is declared by one aspect of the module. */
  predicate SingleOwner(m: Module) {
    forall p, q | p in m.storage && q in m.storage && p.1 == q.1 :: p == q
  }

  /** Rejects a second declaration of a state. */
  method VerifyStateOwnership(m: Module) returns (ok: bool)
    ensures ok <==> SingleOwner(m)
  {
    var owners: map<string, string> := map[];
    var rest := m.storage;
    while rest != {}
      invariant rest <= m.storage
      invariant forall p | p in m.storage && p !in rest :: p.1 in owners && owners[p.1] == p.0
      invariant forall s | s in owners :: (owners[s], s) in m.storage && (owners[s], s) !in rest
      decreases |rest|
    {
      var p :| p in rest;
      if p.1 in owners {
        ghost var q := (owners[p.1], p.1);
        assert q in m.storage && q != p;
        return false;
      }
      owners := owners[p.1 := p.0];
      rest := rest - {p};
    }
    ok := true;
  }

  ghost predicate StateOwned(m: Module, bundle: string, state: string) {
    exists p :: p in m.storage && p.1 == state && InClosure(m, bundle, p.0)
  }

  ghost predicate RegistryOwned(m: Module, bundle: string, registry: string) {
    exists p :: p in m.registries && p.1 == registry && InClosure(m, bundle, p.0)
  }

  /** The allowlist covers a site: by a wildcard, or by naming the same contract. */
  predicate SiteAllowed(patterns: set<Pattern>, t: SiteTarget, name: string) {
    exists p | p in patterns :: p.name == name
      && (p.target.AnyContract? || (t.Fixed? && p.target.contract == t.contract))
  }

  /** What a policy and a bundle permit an action to do. */
  ghost predicate Permitted(m: Module, bundle: string, policy: Policy, f: Fact) {
    match f
    case Effect(kind) => kind in policy.effects && (kind == CallContract ==> policy.calls != {})
    case WritesState(state) => StateOwned(m, bundle, state)
    case UsesRegistry(registry) => RegistryOwned(m, bundle, registry)
    case CallSite(t, name) => SiteAllowed(policy.calls, t, name)
    case ReadSite(t, state) => SiteAllowed(policy.stateReads, t, state)
  }

  /** An action the projection's target may stand for. */
  ghost predicate TargetAction(m: Module, projection: Key, root: Key) {
    && projection in m.projections && ProjectionTarget(m, m.projections[projection]).Some?
    && root in ActionsNamed(m, ProjectionTarget(m, m.projections[projection]).value)
    && InClosure(m, projection.0, root.0)
  }

  /** The policy allows every foreign read inferred from its invariants. */
  ghost predicate InvariantsSafe(m: Module, policy: Policy) {
    forall e | e in policy.invariants :: ReadsAllowed(m, policy, e)
  }

  ghost predicate ReadsAllowed(m: Module, policy: Policy, e: Expr) {
    forall f :: InferredFrom(m, e, f) && f.ReadSite? ==> SiteAllowed(policy.stateReads, f.owner, f.state)
  }

  /**
    The projection has a policy, everything inferred from its target is permitted, and so are the
    foreign reads of the policy's invariants.
  */
  ghost predicate ProjectionSafe(m: Module, projection: Key, root: Key) {
    && TargetAction(m, projection, root) && projection in m.policies
    && (forall f :: Inferred(m, root, f) ==> Permitted(m, projection.0, m.policies[projection], f))
    && InvariantsSafe(m, m.policies[projection])
  }

  /** One fact against the policy, with the bundle's closure already computed. */
  method PermitFact(m: Module, bundle: string, closure: set<string>, policy: Policy, f: Fact) returns (ok: bool)
    requires forall a :: a in closure <==> InClosure(m, bundle, a)
    ensures ok <==> Permitted(m, bundle, policy, f)
  {
    match f
    case Effect(kind) => ok := kind in policy.effects && (kind == CallContract ==> policy.calls != {});
    case WritesState(state) => ok := exists p | p in m.storage :: p.1 == state && p.0 in closure;
    case UsesRegistry(registry) => ok := exists p | p in m.registries :: p.1 == registry && p.0 in closure;
    case CallSite(t, name) => ok := SiteAllowed(policy.calls, t, name);
    case ReadSite(t, state) => ok := SiteAllowed(policy.stateReads, t, state);
  }

  /** The foreign reads of one invariant against the policy. */
  method PermitReads(m: Module, policy: Policy, e: Expr) returns (ok: bool)
    ensures ok <==> ReadsAllowed(m, policy, e)
  {
    var inferred := InferExpr(m, e);
    ok := forall f | f in inferred :: f.ReadSite? ==> SiteAllowed(policy.stateReads, f.owner, f.state);
    assert forall f :: f in inferred <==> InferredFrom(m, e, f);
  }

  /** The invariants of a policy. */
  method PermitInvariants(m: Module, policy: Policy) returns (ok: bool)
    ensures ok <==> InvariantsSafe(m, policy)
  {
    var rest := policy.invariants;
    while rest != {}
      invariant rest <= policy.invariants
                && forall e | e in policy.invariants && e !in rest :: ReadsAllowed(m, policy, e)
      decreases |rest|
    {
      var e :| e in rest;
      var permitted := PermitReads(m, policy, e);
      if !permitted { return false; }
      rest := rest - {e};
    }
    ok := true;
  }

  /** Infers the target's effects and the invariants' reads and checks each of them; accepts exactly what is safe. */
  method VerifyProjection(m: Module, projection: Key) returns (ok: bool, root: Key)
    requires projection in m.projections
    ensures ok ==> ProjectionSafe(m, projection, root)
    ensures !ok ==> (exists r :: TargetAction(m, projection, r)) && projection in m.policies
                    && WellReferenced(m, projection.0) ==>
                      TargetAction(m, projection, root) && !ProjectionSafe(m, projection, root)
  {
    root := ("", "");
    if projection !in m.policies { return false, root; }
    var target := ProjectionTarget(m, m.projections[projection]);
    if target.None? { return false, root; }
    var referenced, closure := BundleAspectClosure(m, projection.0, false);
    if !referenced { return false, root; }
    var candidates := set k | k in ActionsNamed(m, target.value) && k.0 in closure;
    if candidates == {} {
      assert forall r :: TargetAction(m, projection, r) ==> r in candidates;
      return false, root;
    }
    var key :| key in candidates;
    root := key;
    var inferred := InferAction(m, key);
    var rest := inferred;
    while rest != {}
      invariant rest <= inferred
                && forall f | f in inferred && f !in rest :: Permitted(m, projection.0, m.policies[projection], f)
      decreases |rest|
    {
      var f :| f in rest;
      var permitted := PermitFact(m, projection.0, closure, m.policies[projection], f);
      if !permitted {
        assert Inferred(m, root, f);
        return false, root;
      }
      rest := rest - {f};
    }
    ok := PermitInvariants(m, m.policies[projection]);
  }

  // ----------------------------------------------------------- what is guaranteed

  /** A site whose target is a reserved atom: the contract it stands for is known only at run time. */
  predicate LateSite(m: Module, t: SiteTarget) {
    t.Fixed? && t.contract in m.language.reserved
  }

  predicate Wildcard(patterns: set<Pattern>, name: string) {
    exists p | p in patterns :: p.name == name && p.target.AnyContract?
  }

  /** Every late site among the facts is allowed for whatever contract it turns out to stand for. */
  ghost predicate SitesResolved(m: Module, policy: Policy, known: iset<Fact>) {
    && (forall t, name :: CallSite(t, name) in known && LateSite(m, t) ==> Wildcard(policy.calls, name))
    && (forall t, state :: ReadSite(t, state) in known && LateSite(m, t) ==> Wildcard(policy.stateReads, state))
  }

  /** Allowlists name contracts, not atoms that only get a meaning at run time. */
  predicate UnreservedPolicy(m: Module, policy: Policy) {
    && (forall p | p in policy.calls :: p.target.ExactContract? ==> p.target.contract !in m.language.reserved)
    && (forall p | p in policy.stateReads :: p.target.ExactContract? ==> p.target.contract !in m.language.reserved)
  }

  /** An allowlist without reserved atoms resolves every site it allows. */
  lemma UnreservedResolves(m: Module, bundle: string, policy: Policy, known: iset<Fact>)
    requires UnreservedPolicy(m, policy) && forall f | f in known :: Permitted(m, bundle, policy, f)
    ensures SitesResolved(m, policy, known)
  {
    forall t, name | CallSite(t, name) in known && LateSite(m, t) ensures Wildcard(policy.calls, name) {
      assert Permitted(m, bundle, policy, CallSite(t, name));
    }
    forall t, state | ReadSite(t, state) in known && LateSite(m, t) ensures Wildcard(policy.stateReads, state) {
      assert Permitted(m, bundle, policy, ReadSite(t, state));
    }
  }

  /** A written state has one owner in the bundle, and its key passes isolation and scope. */
  lemma OwnedWriteResolves(m: Module, bundle: string, contract: Id, state: string, key: seq<string>, s: Store, v: nat)
    requires SingleOwner(m) && StateOwned(m, bundle, state)
    ensures |OwnersOf(m, bundle, state)| == 1
    ensures AspectKey(m, contract, bundle, state, key).Ok?
    ensures Write(s, Frame(contract, AspectScope(m, contract, bundle)),
                  AspectKey(m, contract, bundle, state, key).value, v)
         == Ok(s.(storage := s.storage[AspectKey(m, contract, bundle, state, key).value := v]))
  {
    var p :| p in m.storage && p.1 == state && InClosure(m, bundle, p.0);
    var owners := OwnersOf(m, bundle, state);
    assert owners == {p.0};
    var k := AspectKey(m, contract, bundle, state, key).value;
    assert AspectState(contract, p.0, state, []) in AspectScope(m, contract, bundle);
    assert k.key != [] ==> k.(key := []) == AspectState(contract, p.0, state, []);
  }

  /** An allowed site is allowed for every contract it admits. */
  lemma SiteAllowsContract(m: Module, patterns: set<Pattern>, t: SiteTarget, name: string, contract: string)
    requires SiteAllowed(patterns, t, name) && Admits(m, t, contract) && (LateSite(m, t) ==> Wildcard(patterns, name))
    ensures Allows(patterns, contract, name)
  {
  }

  /** The operation cannot be refused for lack of ownership, scope or authorization. */
  ghost predicate Unrefusable(m: Module, bundle: string, policy: Policy, contract: Id, op: HostOp) {
    match op
    case SetState(state, key, _) =>
      && |OwnersOf(m, bundle, state)| == 1 && AspectKey(m, contract, bundle, state, key).Ok?
      && AspectKey(m, contract, bundle, state, key).value.contract == contract
      && InScope(AspectScope(m, contract, bundle), AspectKey(m, contract, bundle, state, key).value)
    case GetContractState(other, state, _) => Allows(policy.stateReads, other, state)
    case Call(other, name, _) => Allows(policy.calls, other, name)
    case _ => true
  }

  lemma CoveredIsUnrefusable(m: Module, bundle: string, policy: Policy, contract: Id, op: HostOp, root: Key)
    requires SingleOwner(m) && SitesResolved(m, policy, Known(m, root)) && Covered(m, op, Known(m, root))
    requires forall f :: Inferred(m, root, f) ==> Permitted(m, bundle, policy, f)
    ensures Unrefusable(m, bundle, policy, contract, op)
  {
    match op
    case SetState(state, key, _) =>
      assert Inferred(m, root, WritesState(state)) && Permitted(m, bundle, policy, WritesState(state));
      OwnedWriteResolves(m, bundle, contract, state, key, Store(map[], map[], {}, {}, [], []), 0);
    case GetContractState(other, state, _) =>
      var t :| ReadSite(t, state) in Known(m, root) && Admits(m, t, other);
      assert Inferred(m, root, ReadSite(t, state)) && Permitted(m, bundle, policy, ReadSite(t, state));
      SiteAllowsContract(m, policy.stateReads, t, state, other);
    case Call(other, name, _) =>
      var t :| CallSite(t, name) in Known(m, root) && Admits(m, t, other);
      assert Inferred(m, root, CallSite(t, name)) && Permitted(m, bundle, policy, CallSite(t, name));
      SiteAllowsContract(m, policy.calls, t, name, other);
    case _ =>
  }

  /**
    Static verification implies dynamic safety: whatever a verified projection traces, each write
    resolves to exactly one owning aspect of the bundle and passes the isolation and scope checks, and
    each call and foreign read passes the policy's allowlists.
  */
  lemma VerifiedIsSafe(env: Env, budget: nat, projection: Key, args: seq<Value>, root: Key, contract: Id)
    requires SingleOwner(env.m) && ProjectionSafe(env.m, projection, root)
    requires SitesResolved(env.m, env.m.policies[projection], Known(env.m, root))
    requires CleanBodies(env.m, Reached(env.m, root)) && DirectProjection(env.m, env.m.projections[projection], root)
    ensures forall op | op in ExecuteProjection(env, budget, projection, args).trace ::
              Unrefusable(env.m, projection.0, env.m.policies[projection], contract, op)
  {
    hide ExecuteProjection, Unrefusable, CleanBodies, DirectProjection, SitesResolved;
    ProjectionEffectsSound(env, budget, projection, args, root);
    forall op | op in ExecuteProjection(env, budget, projection, args).trace
      ensures Unrefusable(env.m, projection.0, env.m.policies[projection], contract, op)
    {
      CoveredIsUnrefusable(env.m, projection.0, env.m.policies[projection], contract, op, root);
    }
  }

  ghost function KnownFrom(m: Module, e: Expr): iset<Fact> {
    iset f | InferredFrom(m, e, f)
  }

  ghost function ReachedByExpr(m: Module, e: Expr): iset<Key> {
    iset k | ReachedFrom(m, Follows(m, e), k)
  }

  lemma KnownFromSaturated(m: Module, e: Expr)
    requires Clean(m, e)
    ensures Saturated(m, KnownFrom(m, e), ReachedByExpr(m, e)) && Accounted(m, e, KnownFrom(m, e), ReachedByExpr(m, e))
  {
    var g := FollowGraph(m);
    forall k | k in Follows(m, e) ensures k in ReachedByExpr(m, e) { ReachesSelf(g, k); }
    forall k, c | k in ReachedByExpr(m, e) && c in BodyFollows(m, k) ensures c in ReachedByExpr(m, e) {
      var s :| s in Follows(m, e) && Reaches(g, s, k);
      FollowGraphSuccessors(m, k);
      ReachesEdge(g, s, k, c);
    }
  }

  /** Evaluating an invariant of a verified policy makes no foreign read that the policy does not allow. */
  lemma InvariantReadsAllowed(env: Env, budget: nat, policy: Policy, e: Expr, op: HostOp)
    requires InvariantsSafe(env.m, policy) && e in policy.invariants
             && SitesResolved(env.m, policy, KnownFrom(env.m, e))
    requires Clean(env.m, e) && CleanBodies(env.m, ReachedByExpr(env.m, e))
    requires op in Eval(env, MAX_STACK_DEPTH, budget, map[], e).trace && op.GetContractState?
    ensures Allows(policy.stateReads, op.contract, op.state)
  {
    hide Eval, CleanBodies, Saturated, Accounted;
    var known := KnownFrom(env.m, e);
    KnownFromSaturated(env.m, e);
    EvalCovered(env, MAX_STACK_DEPTH, budget, map[], e, known, ReachedByExpr(env.m, e));
    assert Covered(env.m, op, known);
    var t :| ReadSite(t, op.state) in known && Admits(env.m, t, op.contract);
    assert ReadsAllowed(env.m, policy, e) && InferredFrom(env.m, e, ReadSite(t, op.state));
    SiteAllowsContract(env.m, policy.stateReads, t, op.state, op.contract);
  }

  /**
    At replay an operation of a verified projection is never refused for ownership, isolation, scope or
    authorization.
  */
  lemma ReplayNeverRefuses(cfg: Config, s: Store, tx: Transaction, m: Module, bundle: string, policy: Policy,
                           op: HostOp, stack: seq<Id>)
    requires Unrefusable(m, bundle, policy, tx.target, op)
    ensures var r := ApplyOp(cfg, s, tx, Host(m, bundle, policy, Frame(tx.target, AspectScope(m, tx.target, bundle))),
                             op, stack);
            && (op.SetState? ==> (r.Ok? <==> Stored(op.value).Ok?))
            && (op.GetContractState? ==> r.Ok?)
            && (op.Call? && op.contract != "" && op.contract in cfg.contracts ==>
                  var call := HostCall(cfg, cfg.contracts[op.contract], op.name, op.args);
                  r.Ok? <==> call.Ok? && ExecuteCall(cfg, s,
                                                     tx.(target := op.contract, selector := call.value.0, args :=
                                                         call.value.1), tx.target, stack).Ok?)
  {
    hide ExecuteCall, HostCall;
  }

  /** Replay does refuse an operation that the static checks do not cover. */
  lemma RefusedOtherwise(cfg: Config, s: Store, tx: Transaction, m: Module, bundle: string, policy: Policy, op: HostOp,
                         stack: seq<Id>)
    requires !Unrefusable(m, bundle, policy, tx.target, op)
    ensures ApplyOp(cfg, s, tx, Host(m, bundle, policy, Frame(tx.target, AspectScope(m, tx.target, bundle))), op,
                    stack).Err?
  {
    hide ExecuteCall, HostCall;
    if op.SetState? && OwnersOf(m, bundle, op.state) != {} {
      var owner :| owner in OwnersOf(m, bundle, op.state);
      if |OwnersOf(m, bundle, op.state)| == 1 {
        OwnedInScope(m, bundle, tx.target, op.state, op.key);
      }
    }
  }

  lemma OwnedInScope(m: Module, bundle: string, contract: Id, state: string, key: seq<string>)
    requires |OwnersOf(m, bundle, state)| == 1
    ensures AspectKey(m, contract, bundle, state, key).Ok?
    ensures AspectKey(m, contract, bundle, state, key).value.contract == contract
    ensures InScope(AspectScope(m, contract, bundle), AspectKey(m, contract, bundle, state, key).value)
  {
    var k := AspectKey(m, contract, bundle, state, key).value;
    assert k.aspect in OwnersOf(m, bundle, state);
    assert AspectState(contract, k.aspect, state, []) in AspectScope(m, contract, bundle);
    assert k.key != [] ==> k.(key := []) == AspectState(contract, k.aspect, state, []);
  }
}
