/**
  Queued ids.  A bridge checks the id before it takes the asset in; when the asset's
  ledger is an aspect contract, that transfer is a call and may queue the same id.
  Whether it does can be told before the call: from the contracts the ledger can
  reach, or, for a ledger that calls no one, exactly, from the trace of its transfer.
*/
module Duplicates {
  import opened Common
  import opened Syntax
  import opened Graph
  import opened AspectIr
  import opened Closure
  import opened Evaluator
  import opened Ledger
  import opened Executor
  import opened Steps
  import opened Linearize
  import opened Crossing
  import opened Watch
  import opened Trees
  import opened Chain
  import Escapes

  /** The store in which a bridge queues its message: after the asset has been taken in. */
  ghost function AfterTransfer(cfg: Config, s: Store, tx: Transaction, sender: Id, stack: seq<Id>): Store
    requires BridgeQueue(cfg, s, tx, sender, stack).Ok?
  {
    TransferAsset(cfg, s, tx, ResolveLedger(cfg, s, tx.args[4].id).value, sender, tx.target, tx.args[4].id,
                  tx.args[5].amount, stack).value
  }

  /** A queued message gets an id of its own exactly when the transfer has not used that id meanwhile. */
  lemma QueueUniqueAfter(cfg: Config, s: Store, tx: Transaction, sender: Id, stack: seq<Id>)
    requires BridgeQueue(cfg, s, tx, sender, stack).Ok? && OutboxSound(AfterTransfer(cfg, s, tx, sender, stack))
    requires UniqueIds(AfterTransfer(cfg, s, tx, sender, stack).outbox)
    ensures UniqueIds(BridgeQueue(cfg, s, tx, sender, stack).value.0.outbox)
       <==> tx.args[2].text !in AfterTransfer(cfg, s, tx, sender, stack).outboundIds
  {
    hide TransferAsset, ResolveLedger;
    var s1, id := AfterTransfer(cfg, s, tx, sender, stack), tx.args[2].text;
    var outbox := BridgeQueue(cfg, s, tx, sender, stack).value.0.outbox;
    var n := |s1.outbox|;
    assert outbox[n].id == id && outbox[..n] == s1.outbox;
    if id in s1.outboundIds {
      var i :| 0 <= i < n && s1.outbox[i].id == id;
      assert outbox[i].id == outbox[n].id;
    } else {
      forall i | 0 <= i < n ensures outbox[i].id != id { assert s1.outbox[i].id in s1.outboundIds; }
    }
  }

  /**
    A message is queued under an id of its own when the asset is on a native ledger, or on an aspect ledger from
    which only contracts that queue nothing can be reached.
  */
  lemma QueueUnique(cfg: Config, s: Store, tx: Transaction, sender: Id, stack: seq<Id>, quiet: set<Id>)
    requires WellFormed(cfg) && OutboxSound(s) && UniqueIds(s.outbox) && BridgeQueue(cfg, s, tx, sender, stack).Ok?
    requires SilentSet(cfg, quiet) && (AspectLedger(cfg, tx.args[4].id) ==> tx.args[4].id in quiet)
    ensures UniqueIds(BridgeQueue(cfg, s, tx, sender, stack).value.0.outbox)
  {
    hide TransferAsset, ResolveLedger, SilentSet, UniqueIds;
    var asset := tx.args[4].id;
    var ledger := ResolveLedger(cfg, s, asset).value;
    SoundIsIndexed(s);
    ResolvedIsToken(cfg, s, asset);
    if ledger.AspectToken? { AspectTokenIsAsset(cfg, s, asset); }
    TransferKept(cfg, Silence(quiet), s, tx, ledger, sender, tx.target, asset, tx.args[5].amount, stack,
                 AfterTransfer(cfg, s, tx, sender, stack));
    QueueUniqueAfter(cfg, s, tx, sender, stack);
  }

  lemma AspectTokenIsAsset(cfg: Config, s: Store, asset: Id)
    requires ResolveLedger(cfg, s, asset).Ok? && ResolveLedger(cfg, s, asset).value.AspectToken?
    ensures ResolveLedger(cfg, s, asset).value == AspectToken(asset) && AspectLedger(cfg, asset)
  {
  }

  // -------------------------------------------------- ledgers that call no one

  /** What the asset's ledger does when the bridge takes the asset in, evaluated on the state before the call. */
  ghost function TransferTrace(cfg: Config, s: Store, tx: Transaction, from: Id, to: Id, asset: Id,
                               amount: nat): seq<HostOp>
    requires AspectLedger(cfg, asset)
  {
    var kind := cfg.contracts[asset];
    var m := cfg.modules[kind.moduleHash].ir;
    var env := Env(m, Context(from, from, asset, cfg.height, 0), SnapshotOf(m, s.storage, asset, kind.bundle),
                   ForeignOf(s.storage));
    ExecuteProjection(env, tx.budget, (kind.bundle, ERC20_TRANSFER), [Name(to), Amount(amount)]).trace
  }

  ghost predicate Appends(ops: seq<HostOp>, id: string) {
    exists op | op in ops :: op.AppendOutbox? && op.id == id
  }

  predicate CallsNoOne(ops: seq<HostOp>) {
    forall op | op in ops :: !op.Call?
  }

  /** The ids recorded since are those of the appends, and what was queued since was queued by this contract. */
  ghost predicate Recorded(s: Store, s': Store, c: Id, ops: seq<HostOp>) {
    && (forall id :: id in s'.outboundIds <==> id in s.outboundIds || Appends(ops, id))
    && s.outbox <= s'.outbox && forall i | |s.outbox| <= i < |s'.outbox| :: s'.outbox[i].sourceContract == c
  }

  lemma OpRecorded(cfg: Config, s: Store, tx: Transaction, host: Host, op: HostOp, stack: seq<Id>)
    requires ApplyOp(cfg, s, tx, host, op, stack).Ok? && !op.Call?
    ensures Recorded(s, ApplyOp(cfg, s, tx, host, op, stack).value, tx.target, [op])
  {
    hide AspectKey, InScope, PermitNonce, BridgeCertified, ExecuteCall;
    assert forall id :: Appends([op], id) <==> op.AppendOutbox? && op.id == id by {
      forall id | op.AppendOutbox? && op.id == id ensures Appends([op], id) { assert op in [op]; }
    }
  }

  lemma {:induction false} ReplayRecorded(cfg: Config, s: Store, tx: Transaction, host: Host, ops: seq<HostOp>,
                                          stack: seq<Id>)
    requires Replay(cfg, s, tx, host, ops, stack).Ok? && CallsNoOne(ops)
    ensures Recorded(s, Replay(cfg, s, tx, host, ops, stack).value, tx.target, ops)
    decreases |ops|
  {
    hide ApplyOp;
    if ops != [] {
      var s1 := ApplyOp(cfg, s, tx, host, ops[0], stack).value;
      assert ops[0] in ops;
      OpRecorded(cfg, s, tx, host, ops[0], stack);
      ReplayRecorded(cfg, s1, tx, host, ops[1..], stack);
      AppendsSplit(ops);
      var s' := Replay(cfg, s, tx, host, ops, stack).value;
      forall i | |s.outbox| <= i < |s'.outbox| ensures s'.outbox[i].sourceContract == tx.target {
        if i < |s1.outbox| { assert s'.outbox[i] == s1.outbox[i]; }
      }
    }
  }

  lemma AppendsSplit(ops: seq<HostOp>)
    requires ops != []
    ensures forall id :: Appends(ops, id) <==> Appends([ops[0]], id) || Appends(ops[1..], id)
  {
    assert ops == [ops[0]] + ops[1..];
    forall id ensures Appends(ops, id) <==> Appends([ops[0]], id) || Appends(ops[1..], id) {
      if Appends(ops, id) {
        var op :| op in ops && op.AppendOutbox? && op.id == id;
        assert op in [ops[0]] || op in ops[1..];
      }
    }
  }

  lemma AspectTransferRecorded(cfg: Config, s: Store, tx: Transaction, from: Id, to: Id, asset: Id, amount: nat,
                               stack: seq<Id>, s1: Store)
    requires AspectLedger(cfg, asset) && CallsNoOne(TransferTrace(cfg, s, tx, from, to, asset, amount))
    requires TransferAsset(cfg, s, tx, AspectToken(asset), from, to, asset, amount, stack) == Ok(s1)
    ensures Recorded(s, s1, asset, TransferTrace(cfg, s, tx, from, to, asset, amount))
  {
    hide Recorded, Replay, ExecuteProjection, InvariantHolds, WellReferenced, SnapshotOf, ForeignOf;
    var kind := cfg.contracts[asset];
    var m := cfg.modules[kind.moduleHash].ir;
    var child := tx.(txHash := tx.txHash + ":asset-transfer:" + asset + ":" + from + ":" + to,
                     sender := from, target := asset, selector := Other(ERC20_TRANSFER),
                     args := [PrincipalArg(to), AmountArg(amount)], signatureOk := true);
    assert seq(|child.args|, i requires 0 <= i < |child.args| => ValueOf(child.args[i])) == [Name(to), Amount(amount)];
    assert ExecuteCall(cfg, s, child, from, stack)
             == ExecuteAspect(cfg, s, child, from, kind.moduleHash, kind.bundle, stack + [asset]);
    assert (kind.bundle, ERC20_TRANSFER) in m.policies;
    var host := Host(m, kind.bundle, m.policies[(kind.bundle, ERC20_TRANSFER)],
                     Frame(asset, AspectScope(m, asset, kind.bundle)));
    var ops := TransferTrace(cfg, s, tx, from, to, asset, amount);
    assert Replay(cfg, s, child, host, ops, stack + [asset]) == Ok(s1);
    ReplayRecorded(cfg, s, child, host, ops, stack + [asset]);
  }

  /**
    For an asset whose ledger calls no one, exactly: the message gets an id of its own if and only if the ledger's
    transfer, evaluated before the call, does not append a message under that id.
  */
  lemma QueueUniqueExactly(cfg: Config, s: Store, tx: Transaction, sender: Id, stack: seq<Id>)
    requires WellFormed(cfg) && OutboxSound(s) && UniqueIds(s.outbox) && BridgeQueue(cfg, s, tx, sender, stack).Ok?
    requires ResolveLedger(cfg, s, tx.args[4].id).value.AspectToken? && AspectLedger(cfg, tx.args[4].id)
    requires CallsNoOne(TransferTrace(cfg, s, tx, sender, tx.target, tx.args[4].id, tx.args[5].amount))
    ensures UniqueIds(BridgeQueue(cfg, s, tx, sender, stack).value.0.outbox)
       <==> !Appends(TransferTrace(cfg, s, tx, sender, tx.target, tx.args[4].id, tx.args[5].amount), tx.args[2].text)
  {
    hide TransferAsset, ResolveLedger, TransferTrace, UniqueIds, OutboxSound, Linear, Exports;
    var asset, amount, s1 := tx.args[4].id, tx.args[5].amount, AfterTransfer(cfg, s, tx, sender, stack);
    AspectTokenIsAsset(cfg, s, asset);
    AspectTransferRecorded(cfg, s, tx, sender, tx.target, asset, amount, stack, s1);
    SoundIsIndexed(s);
    var log := TransferSteps(cfg, s, tx, AspectToken(asset), sender, tx.target, asset, amount, stack);
    LogStaysUnique(cfg, s, log, s1, stack, asset);
    QueueUniqueAfter(cfg, s, tx, sender, stack);
  }

  lemma LogStaysUnique(cfg: Config, s: Store, log: seq<Step>, s1: Store, stack: seq<Id>, c: Id)
    requires Linear(cfg, s, log, s1, stack) && OutboxSound(s) && UniqueIds(s.outbox) && !IsBridge(cfg, c)
    requires forall i | |s.outbox| <= i < |s1.outbox| :: s1.outbox[i].sourceContract == c
    ensures OutboxSound(s1) && UniqueIds(s1.outbox)
  {
    hide RunSteps, OutboxSound, UniqueIds;
    LogOutbox(cfg, s, log);
    LogUnique(cfg, s, log);
  }

  // ------------------------------------------------------- an id queued twice

  const METHOD: Key := ("B", "ERC20-transfer")

  /** `(cross-shard-outbox-append! d e i r gold 1)`. */
  const APPEND: Expr :=
    List([Atom("cross-shard-outbox-append!"), Atom("d"), Atom("e"), Atom("i"), Atom("r"), Atom("gold"), Atom("1")])

  const APPENDED: HostOp := AppendOutbox("d", "e", "i", "r", "gold", 1)

  /** `(= (ERC20-transfer $to $amount) (put))`. */
  const PROJECTION: Expr :=
    List([Atom("="), List([Atom("ERC20-transfer"), Atom("$to"), Atom("$amount")]), Escapes.Call0("put")])

  /** A token whose transfer queues a message. */
  function TokenModule(language: Language): Module {
    Module(language, map["A" := AspectDef({}, {}, {}, {})], map["B" := BundleDef({"A"}, {})], map[METHOD := PROJECTION],
           map[("A", "put") := ActionDef(true, Some(List([Atom("="), Escapes.Call0("put"), APPEND])))],
           {}, {}, map[METHOD := Policy({CrossShardOutboxAppend}, {}, {}, {})])
  }

  function Setting(language: Language): Config {
    Config("c", 0, map["bridge" := Bridge("x"), "gold" := Aspect("h", "B")],
           map["h" := Deployed(TokenModule(language), map[])],
           {}, map[], map[], map[])
  }

  const NOTHING: Store := Store(map[], map[], {}, {}, [], [])

  const QUEUE: Transaction := Transaction("c", "t", "u", 0, None, "bridge", QueueBridgeMessage,
    [TextArg("d"), TextArg("e"), TextArg("i"), PrincipalArg("r"), AssetArg("gold"), AmountArg(1)], true, 100)

  predicate Speaks(m: Module) {
    && FormOf(m, "=") == Some(Equal) && FormOf(m, "cross-shard-outbox-append!") == Some(OutboxAppend)
    && FormOf(m, "put") == None
    && "d" !in m.language.reserved && "e" !in m.language.reserved && "i" !in m.language.reserved
    && "r" !in m.language.reserved
    && "gold" !in m.language.reserved && "1" !in m.language.reserved
  }

  lemma Vocabulary(m: Module)
    requires m.language == DETTA
    ensures Speaks(m)
  {
  }

  lemma AtomIsName(env: Env, b: Bindings, a: string)
    requires a != "" && a[0] != '$' && a[0] != '+' && !IsDigit(a[0]) && a !in env.m.language.reserved
    ensures EvalAtom(env, b, a) == Ok(Name(a))
  {
    NotAmount(a);
  }

  lemma NotAmount(a: string)
    requires a != "" && a[0] != '+' && !IsDigit(a[0])
    ensures ParseAmount(a).None?
  {
    assert !AllDigits(a);
  }

  /** An atom operand. */
  lemma AtomOperand(env: Env, frames: nat, left: nat, b: Bindings, mode: Mode, a: string, v: Value)
    requires EvalAtom(env, b, a) == Ok(v) && Convert(mode, v) == Ok(v) && !mode.Literally? && Atom(a) < APPEND
    ensures EvalOperand(env, frames, left, b, Operand(mode, Atom(a)), APPEND) == Run(Ok(v), 0, [])
  {
  }

  lemma NameOperands(env: Env, frames: nat, left: nat, b: Bindings, names: seq<string>, os: seq<Operand>)
    requires Speaks(env.m) && |os| == |names| + 1 && os[|names|] == Operand(AsAmount, Atom("1"))
             && forall i | 0 <= i < |os| :: os[i].expr < APPEND
    requires forall i | 0 <= i < |names| :: os[i] == Operand(AsName, Atom(names[i]))
               && EvalAtom(env, b, names[i]) == Ok(Name(names[i]))
    ensures EvalOperands(env, frames, left, b, os, APPEND)
              == Run(Ok(seq(|names|, i requires 0 <= i < |names| => Name(names[i])) + [Amount(1)]), 0, [])
    decreases |names|
  {
    hide EvalOperands, EvalOperand;
    var tail := os[1..];
    if names == [] {
      Escapes.OneIsAmount(env, b);
      AtomOperand(env, frames, left, b, AsAmount, "1", Amount(1));
      Escapes.NoOperands(env, frames, left, b, tail, APPEND);
      Escapes.QuietOperand(env, frames, left, b, os, APPEND, Amount(1), []);
      assert [Amount(1)] + [] == [] + [Amount(1)];
    } else {
      forall i | 0 <= i < |names[1..]|
        ensures tail[i] == Operand(AsName, Atom(names[1..][i]))
                && EvalAtom(env, b, names[1..][i]) == Ok(Name(names[1..][i]))
      {
        assert tail[i] == os[i + 1] && names[1..][i] == names[i + 1];
      }
      NameOperands(env, frames, left, b, names[1..], tail);
      AtomOperand(env, frames, left, b, AsName, names[0], Name(names[0]));
      var vs := seq(|names[1..]|, i requires 0 <= i < |names[1..]| => Name(names[1..][i])) + [Amount(1)];
      Escapes.QuietOperand(env, frames, left, b, os, APPEND, Name(names[0]), vs);
      assert [Name(names[0])] + vs == seq(|names|, i requires 0 <= i < |names| => Name(names[i])) + [Amount(1)];
    }
  }

  const NAMES: seq<string> := ["d", "e", "i", "r", "gold"]

  lemma NamesEvaluate(env: Env, b: Bindings)
    requires Speaks(env.m)
    ensures forall i | 0 <= i < 5 :: EvalAtom(env, b, NAMES[i]) == Ok(Name(NAMES[i]))
  {
    hide EvalAtom;
    AtomIsName(env, b, "d");
    AtomIsName(env, b, "e");
    AtomIsName(env, b, "i");
    AtomIsName(env, b, "r");
    AtomIsName(env, b, "gold");
  }

  lemma AppendOperands() returns (os: seq<Operand>)
    ensures Operands(OutboxAppend, APPEND.items) == Some(os) && |os| == 6 && os[5] == Operand(AsAmount, Atom("1"))
    ensures forall i | 0 <= i < 5 :: os[i] == Operand(AsName, Atom(NAMES[i]))
    ensures forall i | 0 <= i < 6 :: os[i].expr < APPEND
  {
    var items := APPEND.items;
    os := Zip([AsName, AsName, AsName, AsName, AsName, AsAmount], items[1..]);
    OperandsSmaller(OutboxAppend, items, APPEND);
  }

  lemma AppendOp(vs: seq<Value>)
    requires vs == [Name("d"), Name("e"), Name("i"), Name("r"), Name("gold"), Amount(1)]
    requires Operands(OutboxAppend, APPEND.items).Some? && Fits(Operands(OutboxAppend, APPEND.items).value, vs)
    ensures HostOpOf(OutboxAppend, APPEND.items, vs) == Some(APPENDED)
  {
  }

  lemma AppendRuns(env: Env, frames: nat, left: nat, b: Bindings)
    requires Speaks(env.m) && left >= 1
    ensures Eval(env, frames, left, b, APPEND) == Run(Ok(Unit), 1, [APPENDED])
  {
    hide EvalOperands, EvalAtom, Operands, HostOpOf;
    var os := AppendOperands();
    NamesEvaluate(env, b);
    NameOperands(env, frames, left - 1, b, NAMES, os);
    var vs := [Name("d"), Name("e"), Name("i"), Name("r"), Name("gold"), Amount(1)];
    assert seq(|NAMES|, i requires 0 <= i < |NAMES| => Name(NAMES[i])) + [Amount(1)] == vs;
    AppendOp(vs);
    assert [] + [APPENDED] == [APPENDED];
  }

  /** The token's transfer traces one operation: the append. */
  lemma TransferRuns(env: Env, budget: nat, args: seq<Value>)
    requires env.m == TokenModule(env.m.language) && Speaks(env.m) && |args| == 2 && budget >= 2
    ensures ExecuteProjection(env, budget, METHOD, args) == Run(Ok(Unit), 2, [APPENDED])
  {
    hide Eval, Speaks;
    var signature := PROJECTION.items[1].items;
    assert signature[1..] == [Atom("$to"), Atom("$amount")];
    ParametersOf(signature[1..]);
    ProjectionEquation(env.m);
    var b := Bind(map[], ["to", "amount"], args);
    AppendRuns(env, MAX_STACK_DEPTH - 1, budget - 1, b);
    PutIsOnly(env.m);
    Escapes.ActionRuns(env, MAX_STACK_DEPTH, budget, b, "put", APPEND);
  }

  lemma ParametersOf(es: seq<Expr>)
    requires es == [Atom("$to"), Atom("$amount")]
    ensures Parameters(es) == Some(["to", "amount"])
  {
    assert es[1..] == [Atom("$amount")] && es[1..][1..] == [];
    assert "$to"[1..] == "to" && "$amount"[1..] == "amount";
    assert Parameters(es[1..]) == Some(["amount"] + []);
    assert ["amount"] + [] == ["amount"] && ["to"] + ["amount"] == ["to", "amount"];
  }

  lemma ProjectionEquation(m: Module)
    requires Speaks(m)
    ensures Equation(m, None, PROJECTION) == Some((["to", "amount"], Escapes.Call0("put")))
  {
    var signature := PROJECTION.items[1].items;
    assert signature[1..] == [Atom("$to"), Atom("$amount")];
    ParametersOf(signature[1..]);
  }

  lemma PutIsOnly(m: Module)
    requires m == TokenModule(m.language) && Speaks(m)
    ensures FormOf(m, "=") == Some(Equal) && ActionsNamed(m, "put") == {("A", "put")} && FormOf(m, "put").None?
  {
  }

  /** The bundle refers only to what is declared. */
  lemma Referenced(m: Module)
    requires m == TokenModule(m.language)
    ensures WellReferenced(m, "B")
  {
    var bundles, aspects := BundleParents(m), AspectParents(m);
    forall b | Reaches(bundles, "B", b) ensures b == "B" { ClosedHoldsReachable(bundles, {"B"}, "B", b); }
    forall a | InClosure(m, "B", a) ensures a in m.aspects {
      var b, x :| Reaches(bundles, "B", b) && x in Includes(m, b) && Reaches(aspects, x, a);
      ClosedHoldsReachable(aspects, {"A"}, "A", a);
    }
  }

  /** The store once the token has queued its message. */
  function OneQueued(txHash: string): Store {
    Executor.Emit(NOTHING.(outboundIds := {"i"}, outbox := [Message("c", "gold", 0, "d", "e", "i", "r", "gold", 1)]),
                  "gold", txHash, Notice("queued"))
  }

  /** The token's transfer, called by the bridge, queues a message under the id the bridge has just checked. */
  lemma AspectQueues(language: Language, cfg: Config, child: Transaction, stack: seq<Id>)
    requires cfg == Setting(language) && Speaks(TokenModule(language))
    requires child.target == "gold" && child.selector == Other("ERC20-transfer") && |child.args| == 2
             && child.budget >= 2
    ensures ExecuteAspect(cfg, NOTHING, child, "u", "h", "B", stack)
         == Ok((OneQueued(child.txHash), UnitRet))
  {
    hide ExecuteProjection, WellReferenced, Speaks, SnapshotOf, ForeignOf;
    var m := TokenModule(language);
    assert cfg.modules["h"].ir == m;
    Referenced(m);
    var context := Context(child.sender, "u", "gold", 0, 0);
    var env := Env(m, context, SnapshotOf(m, NOTHING.storage, "gold", "B"), ForeignOf(NOTHING.storage));
    var args := seq(|child.args|, i requires 0 <= i < |child.args| => ValueOf(child.args[i]));
    TransferRuns(env, child.budget, args);
    var host := Host(m, "B", m.policies[METHOD], Frame("gold", AspectScope(m, "gold", "B")));
    ReplayOne(cfg, child, host, stack);
  }

  lemma ReplayOne(cfg: Config, child: Transaction, host: Host, stack: seq<Id>)
    requires cfg.chainId == "c" && cfg.height == 0 && child.target == "gold"
    ensures Replay(cfg, NOTHING, child, host, [APPENDED], stack)
         == Ok(OneQueued(child.txHash))
  {
    hide ExecuteCall;
    var message := Message("c", "gold", 0, "d", "e", "i", "r", "gold", 1);
    assert NOTHING.outbox + [message] == [message] && NOTHING.outboundIds + {"i"} == {"i"};
    assert ApplyOp(cfg, NOTHING, child, host, APPENDED, stack) == Ok(OneQueued(child.txHash));
    assert [APPENDED][1..] == [];
    assert Replay(cfg, OneQueued(child.txHash), child, host, [], stack) == Ok(OneQueued(child.txHash));
  }

  lemma GoldIsAspect(language: Language, cfg: Config)
    requires cfg == Setting(language)
    ensures ResolveLedger(cfg, NOTHING, "gold") == Ok(AspectToken("gold"))
    ensures "gold" in cfg.contracts && cfg.contracts["gold"] == Aspect("h", "B")
            && Exports(cfg, Aspect("h", "B"), Other("ERC20-transfer"))
  {
    assert NativeLedgers(cfg, NOTHING.storage, "gold") == {};
  }

  lemma TransferQueues(language: Language, cfg: Config) returns (s1: Store)
    requires cfg == Setting(language) && Speaks(TokenModule(language))
    ensures TransferAsset(cfg, NOTHING, QUEUE, AspectToken("gold"), "u", "bridge", "gold", 1, ["bridge"]) == Ok(s1)
    ensures s1.outboundIds == {"i"} && |s1.outbox| == 1 && s1.outbox[0].id == "i"
  {
    hide ExecuteAspect, Speaks, Exports;
    var child := QUEUE.(txHash := QUEUE.txHash + ":asset-transfer:" + "gold" + ":" + "u" + ":" + "bridge",
                        sender := "u", target := "gold", selector := Other(ERC20_TRANSFER),
                        args := [PrincipalArg("bridge"), AmountArg(1)], signatureOk := true);
    GoldIsAspect(language, cfg);
    AspectQueues(language, cfg, child, ["bridge"] + ["gold"]);
    s1 := OneQueued(child.txHash);
    assert ExecuteCall(cfg, NOTHING, child, "u", ["bridge"])
             == Dispatch(cfg, NOTHING, child, "u", Aspect("h", "B"), ["bridge"] + ["gold"]);
  }

  /** From an empty outbox, one native queue of an aspect asset commits and leaves two messages under one id. */
  lemma IdQueuedTwice() returns (cfg: Config, s: Store, tx: Transaction)
    ensures UniqueIds(s.outbox) && OutboxSound(s) && BridgeQueue(cfg, s, tx, tx.sender, [tx.target]).Ok?
    ensures !UniqueIds(BridgeQueue(cfg, s, tx, tx.sender, [tx.target]).value.0.outbox)
  {
    hide Speaks, TransferAsset, ResolveLedger;
    cfg, s, tx := Setting(DETTA), NOTHING, QUEUE;
    Vocabulary(TokenModule(DETTA));
    GoldIsAspect(DETTA, cfg);
    var s1 := TransferQueues(DETTA, cfg);
    var outbox := BridgeQueue(cfg, s, tx, "u", ["bridge"]).value.0.outbox;
    assert outbox[0].id == outbox[1].id;
  }
}
