/** Transactions, deployments and runs: what one node's state can do over time. */
module Chain {
  import opened Common
  import opened AspectIr
  import opened Ledger
  import opened Executor
  import opened Steps
  import opened Linearize
  import opened Supply
  import opened Pools
  import opened Rewards
  import opened Crossing
  import opened Custody
  import opened Growth

  /** A node's state: what calls read, what they change, and the nonces already used. */
  datatype World = World(cfg: Config, store: Store, nonces: set<(Id, nat)>)

  datatype Outcome = Rejected(error: Error) | Reverted(error: Error) | Committed(ret: Ret)

  /** A transaction is rejected, or uses its nonce and then commits or changes nothing else. */
  ghost function Transact(w: World, tx: Transaction): (World, Outcome) {
    if tx.chainId != w.cfg.chainId then (w, Rejected(ChainMismatch))
    else if !tx.signatureOk then (w, Rejected(InvalidSignature))
    else if tx.validUntil.Some? && tx.validUntil.value < w.cfg.height then (w, Rejected(TransactionExpired))
    else if (tx.sender, tx.nonce) in w.nonces then (w, Rejected(NonceReplay))
    else
      var used := w.(nonces := w.nonces + {(tx.sender, tx.nonce)});
      if tx.budget < TransactionUnits(tx) then (used, Reverted(OutOfGas))
      else
        match ExecuteCall(w.cfg, w.store, tx, tx.sender, [])
        case Ok(called) => (used.(store := called.0), Committed(called.1))
        case Err(error) => (used, Reverted(error))
  }

  // ------------------------------------------------------------------ deployment

  datatype Deployment = Deployment(contract: Id, kind: Kind, asset: Id, balances: seq<(Id, nat)>, updater: Id)

  /** Parameters a deployment accepts. */
  predicate Acceptable(kind: Kind) {
    match kind
    case AmmPool(a, b, fee) => a != "" && b != "" && a != b && fee <= BPS
    case Oracle(asset, _) => asset != ""
    case Bridge(source) => source != ""
    case LendingVault(collateral, debt, oracle, ltv, _, _, threshold) =>
      collateral != "" && debt != "" && oracle != "" && collateral != debt && ltv <= threshold <= BPS
    case Staking(asset, _, _, penalty) => asset != "" && penalty <= BPS
    case Router(token) => token != ""
    case _ => true
  }

  function SumOf(balances: seq<(Id, nat)>): nat {
    if balances == [] then 0 else SumOf(balances[..|balances| - 1]) + balances[|balances| - 1].1
  }

  predicate OwnersDistinct(balances: seq<(Id, nat)>) {
    && (forall i | 0 <= i < |balances| :: balances[i].0 != "")
    && (forall i, j | 0 <= i < j < |balances| :: balances[i].0 != balances[j].0)
  }

  /** Checks the initial balances one by one and adds them up. */
  method CollectBalances(balances: seq<(Id, nat)>) returns (r: Result<nat, Error>)
    ensures r.Ok? <==> OwnersDistinct(balances) && SumOf(balances) <= U128_MAX
    ensures r.Ok? ==> r.value == SumOf(balances)
  {
    var total, seen := 0, {};
    for n := 0 to |balances|
      invariant OwnersDistinct(balances[..n]) && total == SumOf(balances[..n]) <= U128_MAX
      invariant seen == set i | 0 <= i < n :: balances[i].0
    {
      var (owner, amount) := balances[n];
      SumUpTo(balances, n + 1);
      assert balances[..n + 1][..n] == balances[..n] && balances[..n + 1][n] == balances[n];
      if owner == "" { return Err(InvalidArguments); }
      if owner in seen {
        ghost var i :| 0 <= i < n && balances[i].0 == owner;
        return Err(InvalidArguments);
      }
      seen := seen + {owner};
      if total + amount > U128_MAX { return Err(Overflow); }
      total := total + amount;
      assert OwnersDistinct(balances[..n + 1]);
    }
    assert balances[..|balances|] == balances;
    r := Ok(total);
  }

  lemma {:induction false} SumUpTo(balances: seq<(Id, nat)>, n: nat)
    requires n <= |balances|
    ensures SumOf(balances[..n]) <= SumOf(balances)
    decreases |balances| - n
  {
    if n < |balances| {
      SumUpTo(balances, n + 1);
      assert balances[..n + 1][..n] == balances[..n];
    } else {
      assert balances[..n] == balances;
    }
  }

  /** Writes the initial balances of a token. */
  function Endow(m: Storage, token: Id, asset: Id, balances: seq<(Id, nat)>): Storage {
    if balances == [] then m
    else
      var last := |balances| - 1;
      Endow(m, token, asset, balances[..last])[Balance(token, balances[last].0, asset) := balances[last].1]
  }

  /** Keys a new contract starts with, at zero. */
  function InitialKeys(c: Id, kind: Kind): set<StateKey> {
    match kind
    case AmmPool(a, b, _) => {Reserve(c, a), Reserve(c, b), AmmFeeCollected(c, a), AmmFeeCollected(c, b), LpSupply(c)}
    case Oracle(asset, _) => {OraclePrice(c, asset), OracleTimestamp(c, asset)}
    case Staking(asset, _, _, _) =>
      {TotalStaked(c, asset), TotalPendingUnbond(c, asset), StakingPenaltyCollected(c, asset)}
    case _ => {}
  }

  function Zeroed(m: Storage, ks: set<StateKey>): Storage {
    map k | k in m.Keys + ks :: if k in ks then 0 else m[k]
  }

  ghost predicate Deployable(w: World, d: Deployment) {
    && d.contract != "" && d.contract !in w.cfg.contracts && Acceptable(d.kind)
    && (d.kind.Token? ==> d.asset != "" && OwnersDistinct(d.balances) && SumOf(d.balances) <= U128_MAX
                          && !Issued(w.store.storage, d.asset))
    && (d.kind.AmmPool? ==>
        ResolveLedger(w.cfg, w.store, d.kind.assetA).Ok? && ResolveLedger(w.cfg, w.store, d.kind.assetB).Ok?)
    && (d.kind.Oracle? ==> d.updater != "")
    && (d.kind.Aspect? ==> d.kind.moduleHash in w.cfg.modules && d.kind.bundle != "")
  }

  function DeployedStore(s: Store, d: Deployment): Store {
    match d.kind
    case Token => s.(storage :=
                     Endow(s.storage, d.contract, d.asset,
                           d.balances)[TotalSupply(d.contract, d.asset) := SumOf(d.balances)])
    case Oracle(_, _) =>
      s.(storage := Zeroed(s.storage, InitialKeys(d.contract, d.kind)),
         registry := s.registry[OracleUpdater(d.contract, d.updater) := Grant(d.updater, true, false, None, 0)])
    case _ => s.(storage := Zeroed(s.storage, InitialKeys(d.contract, d.kind)))
  }

  /** Installs a contract; a refused deployment changes nothing. */
  ghost function Deploy(w: World, d: Deployment): World {
    if !Deployable(w, d) then w
    else w.(cfg := w.cfg.(contracts := w.cfg.contracts[d.contract := d.kind]), store := DeployedStore(w.store, d))
  }

  // ------------------------------------------------------------------------ runs

  /**
    What can happen to a node: blocks begin, transactions arrive, contracts are deployed, and its configuration
    changes.
  */
  datatype Action =
    | NextBlock(height: nat)
    | Submit(tx: Transaction)
    | Install(deployment: Deployment)
    | Configure(modules: map<string, Deployed>, paused: set<Id>, trusted: map<Id, ValidatorSet>,
                proofs: map<string, FinalityProof>)

  ghost function Act(w: World, a: Action): World {
    match a
    case NextBlock(height) => w.(cfg := w.cfg.(height := height))
    case Submit(tx) => Transact(w, tx).0
    case Install(d) => Deploy(w, d)
    case Configure(modules, paused, trusted, proofs) =>
      w.(cfg := w.cfg.(modules := modules, paused := paused, trusted := trusted, proofs := proofs))
  }

  ghost function Run(w: World, actions: seq<Action>): World
    decreases |actions|
  {
    if actions == [] then w else Run(Act(w, actions[0]), actions[1..])
  }

  /** What every reachable state satisfies. */
  ghost predicate Sound(w: World) {
    && WellFormed(w.cfg) && Supplied(w.cfg, w.store.storage) && OutboxSound(w.store) && Numbered(w.store.events)
    && Owned(w.cfg, w.store)
  }

  /** An event's index is its position. */
  ghost predicate Numbered(events: seq<Event>) {
    forall i | 0 <= i < |events| :: events[i].index == i
  }

  lemma SoundIsIndexed(s: Store)
    requires OutboxSound(s)
    ensures Indexed(s)
  {
    forall i | 0 <= i < |s.outbox| ensures s.outbox[i].id in s.outboundIds {
      assert s.outbox[i].id == s.outbox[i].id;
    }
  }

  /** A transaction acts on the store as a flat log of steps does. */
  lemma TransactSteps(w: World, tx: Transaction) returns (log: seq<Step>)
    requires WellFormed(w.cfg) && OutboxSound(w.store)
    ensures Linear(w.cfg, w.store, log, Transact(w, tx).0.store, [])
    ensures Transact(w, tx).0.cfg == w.cfg
  {
    hide ExecuteCall, Linear;
    SoundIsIndexed(w.store);
    if Transact(w, tx).1.Committed? {
      log := CallSteps(w.cfg, w.store, tx, tx.sender, []);
    } else {
      log := [];
      LinearNil(w.cfg, w.store, []);
    }
  }

  lemma ClaimNumbered(cfg: Config, s: Store, c: Id, staker: Id, t: Id, txHash: string)
    requires Numbered(s.events) && ApplyClaim(cfg, s, c, staker, t, txHash).Ok?
    ensures Numbered(ApplyClaim(cfg, s, c, staker, t, txHash).value.events)
  {
    hide MintNative, NativeLedgers;
    var a := cfg.contracts[c].stakingAsset;
    var rewardKey := StakingRewardBalance(c, staker, a);
    var claimed := Get(s.storage, rewardKey);
    if claimed != 0 { MintWrites(Put(s, rewardKey, 0), t, staker, a, claimed); }
  }

  lemma StepNumbered(cfg: Config, s: Store, step: Step)
    requires Numbered(s.events) && ApplyStep(cfg, s, step).Ok?
    ensures Numbered(ApplyStep(cfg, s, step).value.events)
  {
    hide TransferNative, AccrueRewards, RewardsDue, MintNative, Quote, BridgeCertified, NativeLedgers, ApplyClaim;
    match step
    case Move(t, from, to, a, amount) => TransferWrites(s, t, from, to, a, amount);
    case Accrue(c, staker) => var due := AccrueWrites(cfg, s, c, staker);
    case Claim(c, staker, t, txHash) => ClaimNumbered(cfg, s, c, staker, t, txHash);
    case Redeem(_, t, _, recipient, a, amount, _, _) => MintWrites(s, t, recipient, a, amount);
    case _ =>
  }

  lemma {:induction false} LogNumbered(cfg: Config, s: Store, log: seq<Step>)
    requires Numbered(s.events) && RunSteps(cfg, s, log).Ok?
    ensures Numbered(RunSteps(cfg, s, log).value.events)
    decreases |log|
  {
    if log != [] {
      StepNumbered(cfg, s, log[0]);
      LogNumbered(cfg, ApplyStep(cfg, s, log[0]).value, log[1..]);
    }
  }

  lemma TransactSound(w: World, tx: Transaction)
    requires Sound(w)
    ensures Sound(Transact(w, tx).0)
  {
    hide Transact, Supplied, OutboxSound, Numbered, Owned;
    var log := TransactSteps(w, tx);
    LogSupplied(w.cfg, w.store, log);
    LogOutbox(w.cfg, w.store, log);
    LogNumbered(w.cfg, w.store, log);
    LogOwned(w.cfg, w.store, log);
  }

  // --------------------------------------------------------- deployments keep ledgers

  lemma {:induction false} EndowTotal(m: Storage, token: Id, asset: Id, balances: seq<(Id, nat)>, family: Family)
    requires OwnersDistinct(balances) && forall k | k in m :: !(k.Balance? && k.contract == token)
    requires family.BalancesOf?
    ensures Total(Endow(m, token, asset, balances), family)
         == Total(m, family) + (if family == BalancesOf(token, asset) then SumOf(balances) else 0)
    ensures forall k: StateKey | !(k.Balance? && k.contract == token) :: k in Endow(m, token, asset, balances)
              <==> k in m
    ensures forall k: StateKey | !(k.Balance? && k.contract == token) ::
              Get(Endow(m, token, asset, balances), k) == Get(m, k)
    ensures forall k: StateKey | k in Endow(m, token, asset, balances) && k.Balance? && k.contract == token ::
              exists i :: 0 <= i < |balances| && k == Balance(token, balances[i].0, asset)
    decreases |balances|
  {
    if balances != [] {
      var last := |balances| - 1;
      var rest := balances[..last];
      var before := Endow(m, token, asset, rest);
      EndowTotal(m, token, asset, rest, family);
      var key := Balance(token, balances[last].0, asset);
      forall i | 0 <= i < |rest| ensures key != Balance(token, rest[i].0, asset) {
        assert balances[i].0 != balances[last].0;
      }
      TotalUpdate(before, key, balances[last].1, family);
      forall k: StateKey | k in before[key := balances[last].1] && k.Balance? && k.contract == token
        ensures exists i :: 0 <= i < |balances| && k == Balance(token, balances[i].0, asset)
      {
        if k == key { assert k == Balance(token, balances[last].0, asset); } else {
          var i :| 0 <= i < |rest| && k == Balance(token, rest[i].0, asset);
          assert k == Balance(token, balances[i].0, asset);
        }
      }
    }
  }

  lemma TokenSupplied(w: World, d: Deployment)
    requires Sound(w) && Deployable(w, d) && d.kind.Token?
    ensures Supplied(Deploy(w, d).cfg, Deploy(w, d).store.storage)
  {
    var m, cfg' := w.store.storage, Deploy(w, d).cfg;
    var m1 := Endow(m, d.contract, d.asset, d.balances);
    var supplyKey := TotalSupply(d.contract, d.asset);
    var m2 := m1[supplyKey := SumOf(d.balances)];
    assert forall k | k in m :: !((k.Balance? || k.TotalSupply?) && k.contract == d.contract);
    forall token, asset ensures Balanced(m2, token, asset) {
      assert Balanced(m, token, asset);
      EndowTotal(m, d.contract, d.asset, d.balances, BalancesOf(token, asset));
      TotalUpdate(m1, supplyKey, SumOf(d.balances), BalancesOf(token, asset));
      if (token, asset) == (d.contract, d.asset) { NoneRecorded(m, token, asset); }
    }
    EndowTotal(m, d.contract, d.asset, d.balances, BalancesOf(d.contract, d.asset));
    forall k | k in m2 && (k.Balance? || k.TotalSupply?) ensures IsToken(cfg', k.contract) {
      if k != supplyKey && !(k.Balance? && k.contract == d.contract) { assert k in m; }
    }
    forall a, b | a in m2 && b in m2 && a.TotalSupply? && b.TotalSupply? && a.asset == b.asset ensures a == b {
      if a != supplyKey { assert a in m; }
      if b != supplyKey { assert b in m; }
    }
  }

  lemma NoneRecorded(m: Storage, token: Id, asset: Id)
    requires forall k | k in m :: !(k.Balance? && k.contract == token)
    ensures Total(m, BalancesOf(token, asset)) == 0
  {
    assert KeysOf(m, BalancesOf(token, asset)) == {};
  }

  lemma ZeroedSupplied(cfg: Config, cfg': Config, m: Storage, ks: set<StateKey>)
    requires Supplied(cfg, m) && (forall c | IsToken(cfg, c) :: IsToken(cfg', c))
             && forall k | k in ks :: !k.Balance? && !k.TotalSupply?
    ensures Supplied(cfg', Zeroed(m, ks))
  {
    var m' := Zeroed(m, ks);
    forall token, asset ensures Balanced(m', token, asset) {
      assert Balanced(m, token, asset);
      var f := BalancesOf(token, asset);
      assert KeysOf(m', f) == KeysOf(m, f);
      SumSame(m, m', KeysOf(m, f));
    }
  }

  /** A deployment touches no key of a contract that was there before, and no message or event. */
  lemma DeployKeeps(w: World, d: Deployment)
    requires Sound(w)
    ensures Deploy(w, d).store.events == w.store.events && Deploy(w, d).store.outbox == w.store.outbox
    ensures forall k: StateKey | k.contract in w.cfg.contracts ::
              (k in Deploy(w, d).store.storage <==> k in w.store.storage)
                && Get(Deploy(w, d).store.storage, k) == Get(w.store.storage, k)
  {
    hide Deployable, Endow, Zeroed, InitialKeys, Supplied, OutboxSound, Numbered;
    if Deployable(w, d) {
      DeployableIsNew(w, d);
      EndowKeeps(w.store.storage, d.contract, d.asset, d.balances);
      InitialKeysOwn(d.contract, d.kind);
      ZeroedKeeps(w.store.storage, InitialKeys(d.contract, d.kind));
    }
  }

  lemma DeployableIsNew(w: World, d: Deployment)
    requires Deployable(w, d)
    ensures d.contract !in w.cfg.contracts
  {
    hide ResolveLedger;
  }

  lemma {:induction false} EndowKeeps(m: Storage, token: Id, asset: Id, balances: seq<(Id, nat)>)
    ensures forall k: StateKey | k.contract != token ::
              (k in Endow(m, token, asset, balances) <==> k in m)
                && Get(Endow(m, token, asset, balances), k) == Get(m, k)
    decreases |balances|
  {
    if balances != [] { EndowKeeps(m, token, asset, balances[..|balances| - 1]); }
  }

  lemma InitialKeysOwn(c: Id, kind: Kind)
    ensures forall k | k in InitialKeys(c, kind) :: k.contract == c
  {
  }

  lemma ZeroedKeeps(m: Storage, ks: set<StateKey>)
    ensures forall k | k !in ks :: (k in Zeroed(m, ks) <==> k in m) && Get(Zeroed(m, ks), k) == Get(m, k)
  {
  }

  /** A deployment adds keys of the new contract only. */
  lemma DeployAdds(w: World, d: Deployment)
    requires Deployable(w, d)
    ensures forall k: StateKey | k.contract != d.contract :: k in Deploy(w, d).store.storage <==> k in w.store.storage
  {
    hide Endow, Zeroed, InitialKeys, ResolveLedger;
    EndowKeeps(w.store.storage, d.contract, d.asset, d.balances);
    InitialKeysOwn(d.contract, d.kind);
    ZeroedKeeps(w.store.storage, InitialKeys(d.contract, d.kind));
  }

  lemma DeployOwned(w: World, d: Deployment)
    requires Owned(w.cfg, w.store)
    ensures Owned(Deploy(w, d).cfg, Deploy(w, d).store)
  {
    hide Deployable, Endow, Zeroed, InitialKeys;
    if Deployable(w, d) { DeployAdds(w, d); }
  }

  lemma DeploySupplied(w: World, d: Deployment)
    requires Sound(w) && Deployable(w, d)
    ensures WellFormed(Deploy(w, d).cfg) && Supplied(Deploy(w, d).cfg, Deploy(w, d).store.storage)
  {
    if d.kind.Token? {
      TokenSupplied(w, d);
    } else {
      ZeroedSupplied(w.cfg, Deploy(w, d).cfg, w.store.storage, InitialKeys(d.contract, d.kind));
    }
  }

  lemma DeploySound(w: World, d: Deployment)
    requires Sound(w)
    ensures Sound(Deploy(w, d))
  {
    hide Supplied, Owned, WellFormed, Deployable, Endow, Zeroed, InitialKeys;
    DeployOwned(w, d);
    if Deployable(w, d) { DeploySupplied(w, d); }
  }

  lemma ActSound(w: World, a: Action)
    requires Sound(w)
    ensures Sound(Act(w, a))
  {
    hide Transact, Deploy;
    match a
    case Submit(tx) => TransactSound(w, tx);
    case Install(d) => DeploySound(w, d);
    case NextBlock(_) =>
    case Configure(_, _, _, _) =>
  }

  /** Every run keeps balances adding up to the supply, one ledger per asset, and the outbox and event log in order. */
  lemma {:induction false} RunSound(w: World, actions: seq<Action>)
    requires Sound(w)
    ensures Sound(Run(w, actions))
    decreases |actions|
  {
    hide Sound, Act;
    if actions != [] {
      ActSound(w, actions[0]);
      RunSound(Act(w, actions[0]), actions[1..]);
    }
  }

  // --------------------------------------------------------------------- beginnings

  /** A node on which nothing has been deployed or executed; its chain, height and trusted sets are any. */
  predicate Genesis(w: World) {
    w.cfg.contracts == map[] && w.store == Store(map[], map[], {}, {}, [], []) && w.nonces == {}
  }

  lemma GenesisSound(w: World)
    requires Genesis(w)
    ensures Sound(w)
  {
    forall token, asset ensures Balanced(w.store.storage, token, asset) { NoneRecorded(w.store.storage, token, asset); }
  }

  /** In every state reachable from genesis balances add up to the supply, and the rest of `Sound` holds. */
  lemma ReachableSound(w: World, actions: seq<Action>)
    requires Genesis(w)
    ensures Sound(Run(w, actions))
  {
    hide Sound;
    GenesisSound(w);
    RunSound(w, actions);
  }

  lemma {:induction false} RunSplits(w: World, actions: seq<Action>, n: nat)
    requires n <= |actions|
    ensures Run(Run(w, actions[..n]), actions[n..]) == Run(w, actions)
    decreases n
  {
    hide Act;
    if n == 0 {
      assert actions[..0] == [] && actions[0..] == actions;
    } else {
      assert actions[..n][1..] == actions[1..][..n - 1] && actions[1..][n - 1..] == actions[n..];
      RunSplits(Act(w, actions[0]), actions[1..], n - 1);
    }
  }

  /** The contract has recorded nothing yet: its own keys are absent or zero, and it has no events and no messages. */
  ghost predicate Newborn(w: World, c: Id) {
    && (forall k: StateKey | k.contract == c && !k.Balance? && !k.TotalSupply? :: Get(w.store.storage, k) == 0)
    && (forall i | 0 <= i < |w.store.events| :: w.store.events[i].contract != c)
    && (forall i | 0 <= i < |w.store.outbox| :: w.store.outbox[i].sourceContract != c)
  }

  lemma UndeployedIsBlank(w: World, c: Id)
    requires Sound(w) && c !in w.cfg.contracts
    ensures Newborn(w, c)
  {
  }

  lemma {:induction false} EndowOnlyBalances(m: Storage, token: Id, asset: Id, balances: seq<(Id, nat)>)
    ensures forall k: StateKey | !k.Balance? :: Get(Endow(m, token, asset, balances), k) == Get(m, k)
    decreases |balances|
  {
    if balances != [] { EndowOnlyBalances(m, token, asset, balances[..|balances| - 1]); }
  }

  lemma ZeroedZero(m: Storage, ks: set<StateKey>)
    ensures forall k | Get(m, k) == 0 :: Get(Zeroed(m, ks), k) == 0
  {
  }

  lemma DeployNewborn(w: World, d: Deployment)
    requires Sound(w) && Deployable(w, d)
    ensures Newborn(Deploy(w, d), d.contract)
  {
    hide Sound, Deployable, Endow, Zeroed, InitialKeys;
    DeployableIsNew(w, d);
    UndeployedIsBlank(w, d.contract);
    EndowOnlyBalances(w.store.storage, d.contract, d.asset, d.balances);
    ZeroedZero(w.store.storage, InitialKeys(d.contract, d.kind));
  }

  lemma ActNewborn(w: World, a: Action, c: Id)
    requires Sound(w) && c !in w.cfg.contracts && c in Act(w, a).cfg.contracts
    ensures Newborn(Act(w, a), c) && a.Install?
  {
    hide Sound, Transact, Deployable, DeployedStore, Newborn;
    match a
    case Submit(tx) =>
      SoundParts(w);
      var log := TransactSteps(w, tx);
    case Install(d) => if Deployable(w, d) { DeployNewborn(w, d); }
    case NextBlock(_) =>
    case Configure(_, _, _, _) =>
  }

  lemma SoundParts(w: World)
    requires Sound(w)
    ensures WellFormed(w.cfg) && OutboxSound(w.store)
  {
  }

  /** A contract that appears during a run was deployed by one action of it, and had recorded nothing then. */
  lemma {:induction false} Birth(w: World, actions: seq<Action>, c: Id) returns (n: nat)
    requires Sound(w) && c !in w.cfg.contracts && c in Run(w, actions).cfg.contracts
    ensures n < |actions| && c in Run(w, actions[..n + 1]).cfg.contracts
    ensures Sound(Run(w, actions[..n + 1])) && Newborn(Run(w, actions[..n + 1]), c)
    ensures Run(Run(w, actions[..n + 1]), actions[n + 1..]) == Run(w, actions)
    ensures forall i | 0 <= i <= n :: c !in Run(w, actions[..i]).cfg.contracts
    decreases |actions|
  {
    hide Sound, Act, Newborn;
    var next := Act(w, actions[0]);
    ActSound(w, actions[0]);
    assert actions[..0] == [];
    if c in next.cfg.contracts {
      ActNewborn(w, actions[0], c);
      n := 0;
      assert actions[..1][1..] == [];
      assert Run(w, actions[..1]) == next;
    } else {
      var m := Birth(next, actions[1..], c);
      n := m + 1;
      forall i | 1 <= i <= n + 1 ensures Run(w, actions[..i]) == Run(next, actions[1..][..i - 1]) {
        assert actions[..i][1..] == actions[1..][..i - 1];
      }
    }
    RunSplits(w, actions, n + 1);
  }

  /** A contract, once deployed, stays what it is. */
  lemma ActContracts(w: World, a: Action, c: Id)
    requires Sound(w) && c in w.cfg.contracts
    ensures c in Act(w, a).cfg.contracts && Act(w, a).cfg.contracts[c] == w.cfg.contracts[c]
            && Act(w, a).cfg.chainId == w.cfg.chainId
  {
    hide Transact;
    if a.Submit? { var log := TransactSteps(w, a.tx); }
  }

  lemma {:induction false} RunContracts(w: World, actions: seq<Action>, c: Id)
    requires Sound(w) && c in w.cfg.contracts
    ensures var w' := Run(w, actions);
            c in w'.cfg.contracts && w'.cfg.contracts[c] == w.cfg.contracts[c] && w'.cfg.chainId == w.cfg.chainId
    decreases |actions|
  {
    hide Sound, Act;
    if actions != [] {
      ActSound(w, actions[0]);
      ActContracts(w, actions[0], c);
      RunContracts(Act(w, actions[0]), actions[1..], c);
    }
  }
}
