/**
  Effect inference: what an action may do, collected by a traversal of its body
  and of the bodies of the actions it may call, each visited once.
*/
module Effects {
  import opened Common
  import opened Syntax
  import opened Graph
  import opened AspectIr

  /** Where a call or a foreign read goes, as far as the text tells. */
  datatype SiteTarget = Fixed(contract: string) | Dynamic(source: string)

  /** One thing inference records. */
  datatype Fact =
    | Effect(kind: EffectKind)
    | WritesState(state: string)
    | UsesRegistry(registry: string)
    | CallSite(callee: SiteTarget, name: string)
    | ReadSite(owner: SiteTarget, state: string)

  function TargetOf(m: Module, e: Expr): SiteTarget {
    match e
    case List(_) => Dynamic(Print(e))
    case Atom(a) =>
      if (a != "" && a[0] == '$') || (a in m.language.reserved && m.language.reserved[a] == CurrentContract)
      then Dynamic(a) else Fixed(a)
  }

  /** The name in atom position `i`, if there is one. */
  function AtomAt(items: seq<Expr>, i: nat): set<string> {
    if i < |items| && items[i].Atom? then {items[i].name} else {}
  }

  function KindOf(form: Form): EffectKind
    requires form.HasEffect()
  {
    match form
    case StateGet | ContractStateGet => ReadState
    case StateSet => WriteState
    case RegistryGet => ReadRegistry
    case RegistrySet => WriteRegistry
    case RegistryConsume => ConsumeRegistryGrant
    case Emit => EmitEvent
    case CallContractForm => CallContract
    case PermitVerify => UsePermitCertificate
    case BridgeVerify => UseBridgeCertificate
    case OutboxAppend => CrossShardOutboxAppend
    case DeployForm => DeployContract
    case ScheduleForm => ScheduleUpgrade
    case ExecuteForm => ExecuteUpgrade
    case AbortForm => Abort
  }

  /** What a list headed by `form` says by itself. */
  function OwnFacts(m: Module, form: Form, items: seq<Expr>): set<Fact> {
    if form.HasEffect() then {Effect(KindOf(form))} + SiteFacts(m, form, items) else {}
  }

  function SiteFacts(m: Module, form: Form, items: seq<Expr>): set<Fact> {
    match form
    case StateSet => set s | s in AtomAt(items, 1) :: WritesState(s)
    case RegistryGet | RegistrySet | RegistryConsume => set r | r in AtomAt(items, 1) :: UsesRegistry(r)
    case CallContractForm => set f | f in AtomAt(items, 2) :: CallSite(TargetOf(m, items[1]), f)
    case ContractStateGet => set s | s in AtomAt(items, 2) :: ReadSite(TargetOf(m, items[1]), s)
    case _ => {}
  }

  function HeadFacts(m: Module, items: seq<Expr>): set<Fact>
    requires items != [] && items[0].Atom?
  {
    var form := FormOf(m, items[0].name);
    if form.Some? then OwnFacts(m, form.value, items) else {}
  }

  /** The actions whose bodies inference goes on to visit for a list with this head. */
  function HeadFollows(m: Module, head: string): set<Key> {
    var form := FormOf(m, head);
    if form.Some? && form.value.HasEffect() then {} else ActionsNamed(m, head)
  }

  /** An equation whose left side is headed by an action name is taken for a definition. */
  predicate IsDefinition(m: Module, items: seq<Expr>) {
    && IsEquation(m, items)
    && var signature := HeadName(items[1]);
       signature.Some? && ActionsNamed(m, signature.value) != {}
  }

  /** The parts of a list inference descends into. */
  function Descends(m: Module, items: seq<Expr>): (r: seq<Expr>)
    ensures forall i | 0 <= i < |r| :: r[i] in items
  {
    if items == [] || items[0].List? then items
    else if IsDefinition(m, items) then [items[2]]
    else items[1..]
  }

  /** The facts of an expression, not counting those of the actions it calls. */
  function Facts(m: Module, e: Expr): set<Fact>
    decreases e, 1
  {
    match e
    case Atom(_) => {}
    case List(items) =>
      (if items != [] && items[0].Atom? && !IsDefinition(m, items) then HeadFacts(m, items) else {})
      + FactsOf(m, e, Descends(m, items))
  }

  function FactsOf(m: Module, within: Expr, es: seq<Expr>): (r: set<Fact>)
    requires forall i | 0 <= i < |es| :: es[i] < within
    ensures forall x | x in es :: Facts(m, x) <= r
    decreases within, 0, |es|
  {
    if es == [] then {} else Facts(m, es[0]) + FactsOf(m, within, es[1..])
  }

  /** The actions an expression leads inference to. */
  function Follows(m: Module, e: Expr): set<Key>
    decreases e, 1
  {
    match e
    case Atom(_) => {}
    case List(items) =>
      (if items != [] && items[0].Atom? && !IsDefinition(m, items) then HeadFollows(m, items[0].name) else {})
      + FollowsOf(m, e, Descends(m, items))
  }

  function FollowsOf(m: Module, within: Expr, es: seq<Expr>): (r: set<Key>)
    requires forall i | 0 <= i < |es| :: es[i] < within
    ensures forall x | x in es :: Follows(m, x) <= r
    decreases within, 0, |es|
  {
    if es == [] then {} else Follows(m, es[0]) + FollowsOf(m, within, es[1..])
  }

  function BodyFacts(m: Module, k: Key): set<Fact> {
    if k in m.actions && m.actions[k].body.Some? then Facts(m, m.actions[k].body.value) else {}
  }

  function BodyFollows(m: Module, k: Key): set<Key> {
    if k in m.actions && m.actions[k].body.Some? then Follows(m, m.actions[k].body.value) else {}
  }

  function FollowGraph(m: Module): Graph<Key> {
    map k | k in m.actions :: BodyFollows(m, k)
  }

  lemma FollowGraphSuccessors(m: Module, k: Key)
    ensures Successors(FollowGraph(m), k) == BodyFollows(m, k)
  {
  }

  /** The reference definition: a fact of some body reachable from `root`. */
  ghost predicate Inferred(m: Module, root: Key, f: Fact) {
    exists k :: Reaches(FollowGraph(m), root, k) && f in BodyFacts(m, k)
  }

  /** What the traversal has gathered. */
  datatype Gathered = Gathered(visited: set<Key>, inferred: set<Fact>)

  /**
    The traversal from `a` to `b` accounts for the facts `own` and the actions `from`:
    the bodies newly visited are fully recorded, they are all reached from `from`, and
    every new fact is in `own` or in one of them.
  */
  ghost predicate Grows(m: Module, a: Gathered, b: Gathered, own: set<Fact>, from: set<Key>) {
    && a.visited <= b.visited && a.inferred <= b.inferred
    && (forall k | k in b.visited - a.visited :: BodyFacts(m, k) <= b.inferred && BodyFollows(m, k) <= b.visited)
    && (forall k | k in b.visited - a.visited :: ReachedFrom(m, from, k))
    && (forall f | f in b.inferred - a.inferred :: f in own || InBodyOf(m, b.visited - a.visited, f))
  }

  ghost predicate ReachedFrom(m: Module, from: set<Key>, k: Key) {
    exists s :: s in from && Reaches(FollowGraph(m), s, k)
  }

  ghost predicate InBodyOf(m: Module, ks: set<Key>, f: Fact) {
    exists k :: k in ks && f in BodyFacts(m, k)
  }

  lemma GrowsTwice(m: Module, a: Gathered, b: Gathered, c: Gathered,
                   own: set<Fact>, from: set<Key>, own': set<Fact>, from': set<Key>)
    requires Grows(m, a, b, own, from) && Grows(m, b, c, own', from')
    ensures Grows(m, a, c, own + own', from + from')
  {
    forall k | k in c.visited - a.visited ensures ReachedFrom(m, from + from', k) {
      var origin := if k in b.visited then from else from';
      assert ReachedFrom(m, origin, k);
      var s :| s in origin && Reaches(FollowGraph(m), s, k);
    }
    forall f | f in c.inferred - a.inferred && f !in own + own' ensures InBodyOf(m, c.visited - a.visited, f) {
      var k :| k in (if f in b.inferred then b.visited - a.visited else c.visited - b.visited) && f in BodyFacts(m, k);
    }
  }

  /** Visiting the body of a new key accounts for that key. */
  lemma GrowsAction(m: Module, a: Gathered, b: Gathered, key: Key)
    requires key !in a.visited && key in b.visited
    requires Grows(m, Gathered(a.visited + {key}, a.inferred), b, BodyFacts(m, key), BodyFollows(m, key))
    requires BodyFacts(m, key) <= b.inferred && BodyFollows(m, key) <= b.visited
    ensures Grows(m, a, b, {}, {key})
  {
    var g := FollowGraph(m);
    forall k | k in b.visited - a.visited ensures ReachedFrom(m, {key}, k) {
      ReachesSelf(g, key);
      if k != key {
        assert ReachedFrom(m, BodyFollows(m, key), k);
        var s :| s in BodyFollows(m, key) && Reaches(g, s, k);
        FollowGraphSuccessors(m, key);
        ReachesStep(g, key, s, k);
      }
      assert key in {key} && Reaches(g, key, k);
    }
    forall f | f in b.inferred - a.inferred ensures InBodyOf(m, b.visited - a.visited, f) {
      if f in BodyFacts(m, key) {
        assert key in b.visited - a.visited;
      } else {
        var k :| k in b.visited - (a.visited + {key}) && f in BodyFacts(m, k);
        assert k in b.visited - a.visited;
      }
    }
  }

  /** The traversal with the two sets it fills. */
  class EffectInference {
    const m: Module
    var visited: set<Key>
    var inferred: set<Fact>

    constructor (m: Module)
      ensures this.m == m && visited == {} && inferred == {}
    {
      this.m := m;
      visited, inferred := {}, {};
    }

    ghost function View(): Gathered
      reads this
    {
      Gathered(visited, inferred)
    }

    method InferActionEffects(key: Key)
      modifies this`visited, this`inferred
      ensures key in visited && Grows(m, old(View()), View(), {}, {key})
      decreases m.actions.Keys - visited, if key in m.actions.Keys then 1 else 0
    {
      if key in visited { return; }
      visited := visited + {key};
      if key in m.actions && m.actions[key].body.Some? {
        InferExprEffects(m.actions[key].body.value);
      }
      GrowsAction(m, old(View()), View(), key);
    }

    /** Records a head and visits the actions it names. */
    method InferHead(items: seq<Expr>)
      requires items != [] && items[0].Atom?
      modifies this`visited, this`inferred
      ensures HeadFacts(m, items) <= inferred && HeadFollows(m, items[0].name) <= visited
      ensures Grows(m, old(View()), View(), HeadFacts(m, items), HeadFollows(m, items[0].name))
      decreases m.actions.Keys - visited, 2
    {
      inferred := inferred + HeadFacts(m, items);
      var todo := HeadFollows(m, items[0].name);
      ghost var done: set<Key> := {};
      while todo != {}
        invariant todo + done == HeadFollows(m, items[0].name) && done <= visited
        invariant HeadFacts(m, items) <= inferred
        invariant Grows(m, old(View()), View(), HeadFacts(m, items), done)
        decreases todo
      {
        var key :| key in todo;
        ghost var mid := View();
        InferActionEffects(key);
        GrowsTwice(m, old(View()), mid, View(), HeadFacts(m, items), done, {}, {key});
        assert HeadFacts(m, items) + {} == HeadFacts(m, items);
        todo, done := todo - {key}, done + {key};
      }
      assert done == HeadFollows(m, items[0].name);
    }

    /** Visits the parts of `within` in order. */
    method InferParts(within: Expr, parts: seq<Expr>)
      requires forall i | 0 <= i < |parts| :: parts[i] < within
      modifies this`visited, this`inferred
      ensures FactsOf(m, within, parts) <= inferred && FollowsOf(m, within, parts) <= visited
      ensures Grows(m, old(View()), View(), FactsOf(m, within, parts), FollowsOf(m, within, parts))
      decreases m.actions.Keys - visited, 3, within, 0
    {
      hide Facts, Follows;
      ghost var own, from := FactsOf(m, within, parts), FollowsOf(m, within, parts);
      var i := 0;
      while i < |parts|
        invariant 0 <= i <= |parts|
        invariant forall j | 0 <= j < i :: Facts(m, parts[j]) <= inferred && Follows(m, parts[j]) <= visited
        invariant Grows(m, old(View()), View(), own, from)
      {
        assert parts[i] in parts;
        ghost var mid := View();
        InferExprEffects(parts[i]);
        GrowsTwice(m, old(View()), mid, View(), own, from, Facts(m, parts[i]), Follows(m, parts[i]));
        assert own + Facts(m, parts[i]) == own && from + Follows(m, parts[i]) == from;
        i := i + 1;
      }
      FactsOfCovered(m, within, parts, inferred);
      FollowsOfCovered(m, within, parts, visited);
    }

    method InferExprEffects(e: Expr)
      modifies this`visited, this`inferred
      ensures Facts(m, e) <= inferred && Follows(m, e) <= visited
      ensures Grows(m, old(View()), View(), Facts(m, e), Follows(m, e))
      decreases m.actions.Keys - visited, 3, e, 1
    {
      if e.Atom? { return; }
      var items := e.items;
      ghost var own, from: set<Key> := {}, {};
      if items != [] && items[0].Atom? && !IsDefinition(m, items) {
        InferHead(items);
        own, from := HeadFacts(m, items), HeadFollows(m, items[0].name);
      }
      ghost var mid := View();
      InferParts(e, Descends(m, items));
      GrowsTwice(m, old(View()), mid, View(), own, from, FactsOf(m, e, Descends(m, items)),
                 FollowsOf(m, e, Descends(m, items)));
    }
  }

  lemma {:induction false} FactsOfCovered(m: Module, within: Expr, es: seq<Expr>, s: set<Fact>)
    requires forall i | 0 <= i < |es| :: es[i] < within && Facts(m, es[i]) <= s
    ensures FactsOf(m, within, es) <= s
  {
    if es != [] { FactsOfCovered(m, within, es[1..], s); }
  }

  lemma {:induction false} FollowsOfCovered(m: Module, within: Expr, es: seq<Expr>, s: set<Key>)
    requires forall i | 0 <= i < |es| :: es[i] < within && Follows(m, es[i]) <= s
    ensures FollowsOf(m, within, es) <= s
  {
    if es != [] { FollowsOfCovered(m, within, es[1..], s); }
  }

  /** Inference from an action finds exactly the facts of the bodies reachable from it. */
  method InferAction(m: Module, root: Key) returns (inferred: set<Fact>)
    ensures forall f :: f in inferred <==> Inferred(m, root, f)
  {
    var walk := new EffectInference(m);
    walk.InferActionEffects(root);
    inferred := walk.inferred;
    ghost var g := FollowGraph(m);
    forall k | Reaches(g, root, k) ensures k in walk.visited {
      forall a | a in walk.visited ensures Successors(g, a) <= walk.visited { FollowGraphSuccessors(m, a); }
      ClosedHoldsReachable(g, walk.visited, root, k);
    }
    forall f | f in inferred ensures Inferred(m, root, f) {
      assert InBodyOf(m, walk.visited - {}, f);
      var k :| k in walk.visited - {} && f in BodyFacts(m, k);
      assert ReachedFrom(m, {root}, k);
    }
  }

  /** A fact of an expression, or of some body reachable from it. */
  ghost predicate InferredFrom(m: Module, e: Expr, f: Fact) {
    f in Facts(m, e) || exists k :: ReachedFrom(m, Follows(m, e), k) && f in BodyFacts(m, k)
  }

  /** Inference from an expression finds exactly its own facts and those of the bodies reachable from it. */
  method InferExpr(m: Module, e: Expr) returns (inferred: set<Fact>)
    ensures forall f :: f in inferred <==> InferredFrom(m, e, f)
  {
    var walk := new EffectInference(m);
    walk.InferExprEffects(e);
    inferred := walk.inferred;
    ghost var g := FollowGraph(m);
    forall k | ReachedFrom(m, Follows(m, e), k) ensures k in walk.visited {
      var s :| s in Follows(m, e) && Reaches(g, s, k);
      forall a | a in walk.visited ensures Successors(g, a) <= walk.visited { FollowGraphSuccessors(m, a); }
      ClosedHoldsReachable(g, walk.visited, s, k);
    }
    forall f | f in inferred ensures InferredFrom(m, e, f) {
      if f !in Facts(m, e) {
        assert InBodyOf(m, walk.visited - {}, f);
        var k :| k in walk.visited - {} && f in BodyFacts(m, k);
        assert ReachedFrom(m, Follows(m, e), k);
      }
    }
  }
}
