/** What holds from the beginning to the end of every run. */
module Runs {
  import opened Common
  import opened Ledger
  import opened Executor
  import opened Steps
  import opened Linearize
  import opened Supply
  import opened Pools
  import opened Rewards
  import opened Crossing
  import opened Custody
  import opened Growth
  import opened Chain
  import opened Settlement

  // ----------------------------------------------------------------------- pools

  lemma DeployReserves(w: World, d: Deployment, pool: Id)
    requires Sound(w) && IsPool(w.cfg, pool)
    ensures IsPool(Deploy(w, d).cfg, pool) && Solvent(w.cfg, w.store.storage, Deploy(w, d).store.storage, pool)
  {
    DeployKeeps(w, d);
  }

  lemma ActSolvent(w: World, a: Action, pool: Id)
    requires Sound(w) && IsPool(w.cfg, pool)
    ensures IsPool(Act(w, a).cfg, pool) && Act(w, a).cfg.contracts[pool] == w.cfg.contracts[pool]
    ensures Solvent(w.cfg, w.store.storage, Act(w, a).store.storage, pool)
  {
    hide Transact, Deploy, Supplied, OutboxSound, Numbered;
    ActContracts(w, a, pool);
    match a
    case Submit(tx) =>
      var log := TransactSteps(w, tx);
      LogSolvent(w.cfg, w.store, log, pool);
    case Install(d) => DeployReserves(w, d, pool);
    case NextBlock(_) =>
    case Configure(_, _, _, _) =>
  }

  /** Over every run no pool's product shrinks and no reserve is emptied. */
  lemma {:induction false} RunSolvent(w: World, actions: seq<Action>, pool: Id)
    requires Sound(w) && IsPool(w.cfg, pool)
    ensures Solvent(w.cfg, w.store.storage, Run(w, actions).store.storage, pool)
    decreases |actions|
  {
    hide Sound, Act;
    if actions != [] {
      var next := Act(w, actions[0]);
      ActSound(w, actions[0]);
      ActSolvent(w, actions[0], pool);
      RunSolvent(next, actions[1..], pool);
    }
  }

  // ---------------------------------------------------------------------- supply

  lemma DeployAccounts(w: World, d: Deployment, token: Id, asset: Id)
    requires Sound(w) && TotalSupply(token, asset) in w.store.storage
    ensures Accounts(w.store, Deploy(w, d).store, token, asset)
  {
    hide Deploy;
    DeployKeeps(w, d);
  }

  lemma ActAccounts(w: World, a: Action, token: Id, asset: Id)
    requires Sound(w) && TotalSupply(token, asset) in w.store.storage
    ensures Accounts(w.store, Act(w, a).store, token, asset)
  {
    hide Transact, Deploy, Supplied, OutboxSound, Numbered;
    match a
    case Submit(tx) =>
      var log := TransactSteps(w, tx);
      LogAccounts(w.cfg, w.store, log, token, asset);
    case Install(d) => DeployAccounts(w, d, token, asset);
    case NextBlock(_) =>
    case Configure(_, _, _, _) =>
  }

  /**
    Over every run the supply of an asset grows by the rewards claimed and the redemptions made, and by nothing else.
  */
  lemma {:induction false} RunAccounts(w: World, actions: seq<Action>, token: Id, asset: Id)
    requires Sound(w) && TotalSupply(token, asset) in w.store.storage
    ensures Accounts(w.store, Run(w, actions).store, token, asset)
    decreases |actions|
  {
    hide Sound, Act;
    if actions != [] {
      ActSound(w, actions[0]);
      ActAccounts(w, actions[0], token, asset);
      RunAccounts(Act(w, actions[0]), actions[1..], token, asset);
    }
  }

  // --------------------------------------------------------------------- rewards

  /** Block heights do not go back. */
  ghost predicate Forward(height: nat, actions: seq<Action>)
    decreases |actions|
  {
    actions == [] || (if actions[0].NextBlock? then
                      height <= actions[0].height && Forward(actions[0].height, actions[1..])
                      else Forward(height, actions[1..]))
  }

  /** The sum over all blocks of a run of stake times rate. */
  ghost function RewardsOver(w: World, actions: seq<Action>, c: Id, staker: Id, asset: Id, rate: nat): int
    decreases |actions|
  {
    if actions == [] then 0
    else
      (if actions[0].NextBlock? then
       StakeOf(w.store.storage, c, staker, asset) * rate * (actions[0].height - w.cfg.height) else 0)
      + RewardsOver(Act(w, actions[0]), actions[1..], c, staker, asset, rate)
  }

  lemma DeployFair(w: World, d: Deployment, c: Id, staker: Id, asset: Id, rate: nat)
    requires Sound(w) && c in w.cfg.contracts && LastOf(w.store.storage, c, staker, asset) <= w.cfg.height
    ensures Fair(w.store, Deploy(w, d).store, c, staker, asset, rate, w.cfg.height)
  {
    hide Fair;
    DeployKeeps(w, d);
    Untouched(w.store, Deploy(w, d).store, c, staker, asset, rate, w.cfg.height);
  }

  /**
    One action: what the staker has earned grows only when a block begins, by the stake times the rate for each
    height.
  */
  lemma ActFair(w: World, a: Action, c: Id, staker: Id)
    requires Sound(w) && IsStaking(w.cfg, c) && (a.NextBlock? ==> w.cfg.height <= a.height)
    requires LastOf(w.store.storage, c, staker, w.cfg.contracts[c].stakingAsset) <= w.cfg.height
    ensures var asset, rate, w' := w.cfg.contracts[c].stakingAsset, w.cfg.contracts[c].rewardPerBlock, Act(w, a);
            && LastOf(w'.store.storage, c, staker, asset) <= w'.cfg.height
            && Earned(w'.store, c, staker, asset, rate, w'.cfg.height)
               == Earned(w.store, c, staker, asset, rate, w.cfg.height)
                 + (if a.NextBlock? then StakeOf(w.store.storage, c, staker, asset) * rate * (a.height - w.cfg.height)
                    else 0)
  {
    hide Transact, Deploy, Supplied, OutboxSound, Numbered, Earned;
    var asset, rate := w.cfg.contracts[c].stakingAsset, w.cfg.contracts[c].rewardPerBlock;
    match a
    case Submit(tx) =>
      var log := TransactSteps(w, tx);
      LogFair(w.cfg, w.store, log, c, staker);
    case Install(d) =>
      DeployFair(w, d, c, staker, asset, rate);
      DeployHeight(w, d);
    case NextBlock(height) => EarnedByWaiting(w.store, c, staker, asset, rate, w.cfg.height, height);
    case Configure(_, _, _, _) =>
  }

  lemma DeployHeight(w: World, d: Deployment)
    ensures Deploy(w, d).cfg.height == w.cfg.height
  {
  }

  /**
    Path independence: however accruals, stakes and claims are interleaved, a staker's claimed plus
    outstanding rewards grow by the sum over blocks of stake times rate.
  */
  lemma {:induction false} RunFair(w: World, actions: seq<Action>, c: Id, staker: Id)
    requires Sound(w) && IsStaking(w.cfg, c) && Forward(w.cfg.height, actions)
    requires LastOf(w.store.storage, c, staker, w.cfg.contracts[c].stakingAsset) <= w.cfg.height
    ensures var asset, rate, w' := w.cfg.contracts[c].stakingAsset, w.cfg.contracts[c].rewardPerBlock, Run(w, actions);
            && LastOf(w'.store.storage, c, staker, asset) <= w'.cfg.height
            && Earned(w'.store, c, staker, asset, rate, w'.cfg.height)
               == Earned(w.store, c, staker, asset, rate, w.cfg.height)
                 + RewardsOver(w, actions, c, staker, asset, rate)
    decreases |actions|
  {
    hide Sound, Act, Earned;
    if actions != [] {
      var next := Act(w, actions[0]);
      ActSound(w, actions[0]);
      ActContracts(w, actions[0], c);
      ActFair(w, actions[0], c, staker);
      ActHeight(w, actions[0]);
      RunFair(next, actions[1..], c, staker);
    }
  }

  lemma ActHeight(w: World, a: Action)
    requires Sound(w)
    ensures Act(w, a).cfg.height == (if a.NextBlock? then a.height else w.cfg.height)
  {
    hide Transact, Deploy;
    match a
    case Submit(tx) => var log := TransactSteps(w, tx);
    case Install(d) => DeployHeight(w, d);
    case NextBlock(_) =>
    case Configure(_, _, _, _) =>
  }

  // ---------------------------------------------------------------------- bridge

  /** Along the run, trusted quorums of the contract's source sign only roots of this outbox. */
  ghost predicate HonestRun(w: World, actions: seq<Action>, source: Id, outbox: seq<Message>)
    decreases |actions|
  {
    SignedHonestly(w.cfg, source, outbox)
      && (actions == [] || HonestRun(Act(w, actions[0]), actions[1..], source, outbox))
  }

  lemma DeployRedeemable(w: World, d: Deployment, c: Id, outbox: seq<Message>)
    requires Sound(w) && c in w.cfg.contracts && Redeemable(w.store, w.cfg.chainId, c, outbox)
    ensures Redeemable(Deploy(w, d).store, w.cfg.chainId, c, outbox)
  {
    hide Redeemable;
    DeployKeeps(w, d);
    SameRedeemable(w.store, Deploy(w, d).store, w.cfg.chainId, c, outbox);
  }

  lemma ActRedeemable(w: World, a: Action, c: Id, outbox: seq<Message>)
    requires Sound(w) && IsBridge(w.cfg, c) && SignedHonestly(w.cfg, w.cfg.contracts[c].sourceChain, outbox)
    requires Redeemable(w.store, w.cfg.chainId, c, outbox)
    ensures Redeemable(Act(w, a).store, w.cfg.chainId, c, outbox)
  {
    hide Transact, Deploy, Supplied, OutboxSound, Numbered, Redeemable, SignedHonestly;
    match a
    case Submit(tx) =>
      var log := TransactSteps(w, tx);
      LogRedeemable(w.cfg, w.store, log, c, outbox);
    case Install(d) => DeployRedeemable(w, d, c, outbox);
    case NextBlock(_) =>
    case Configure(_, _, _, _) =>
  }

  lemma {:induction false} RunRedeemable(w: World, actions: seq<Action>, c: Id, outbox: seq<Message>)
    requires Sound(w) && IsBridge(w.cfg, c) && HonestRun(w, actions, w.cfg.contracts[c].sourceChain, outbox)
    requires Redeemable(w.store, w.cfg.chainId, c, outbox)
    ensures Redeemable(Run(w, actions).store, w.cfg.chainId, c, outbox)
    decreases |actions|
  {
    hide Sound, Act, Redeemable, SignedHonestly;
    if actions != [] {
      ActSound(w, actions[0]);
      ActContracts(w, actions[0], c);
      ActRedeemable(w, actions[0], c, outbox);
      RunRedeemable(Act(w, actions[0]), actions[1..], c, outbox);
    }
  }

  /**
    Conservation across chains.  If trusted quorums sign only real outbox roots of the source, then
    after any run of the destination its redemptions belong to distinct messages that the source
    queued for that contract, and no more of an asset has been redeemed than was queued.
  */
  lemma RedeemedWithinQueued(source: World, sourceRun: seq<Action>, w: World, actions: seq<Action>, c: Id, asset: Id)
    returns (at: seq<nat>)
    requires Sound(w) && IsBridge(w.cfg, c) && Redemptions(w.store.events, c) == []
    requires HonestRun(w, actions, w.cfg.contracts[c].sourceChain, Run(source, sourceRun).store.outbox)
    ensures var outbox, rs := Run(source, sourceRun).store.outbox, Redemptions(Run(w, actions).store.events, c);
            && |at| == |rs|
            && (forall i | 0 <= i < |rs| :: at[i] < |outbox| && Carries(outbox[at[i]], w.cfg.chainId, c, rs[i]))
            && (forall i, j | 0 <= i < j < |rs| :: at[i] != at[j])
            && RedeemedTotal(rs, asset) <= QueuedTotal(outbox, w.cfg.chainId, c, asset)
  {
    hide Run, Sound, HonestRun;
    var outbox := Run(source, sourceRun).store.outbox;
    RunRedeemable(w, actions, c, outbox);
    var rs := Redemptions(Run(w, actions).store.events, c);
    at := Correspondence(rs, outbox, w.cfg.chainId, c);
    Conserved(rs, outbox, w.cfg.chainId, c, asset);
  }

  /** Messages already queued are never withdrawn or changed. */
  lemma {:induction false} OutboxGrows(w: World, actions: seq<Action>)
    requires Sound(w)
    ensures w.store.outbox <= Run(w, actions).store.outbox
    decreases |actions|
  {
    hide Sound, Act;
    if actions != [] {
      ActSound(w, actions[0]);
      ActOutbox(w, actions[0]);
      OutboxGrows(Act(w, actions[0]), actions[1..]);
    }
  }

  lemma ActOutbox(w: World, a: Action)
    requires Sound(w)
    ensures w.store.outbox <= Act(w, a).store.outbox
    ensures UniqueIds(w.store.outbox) && NoneExposed(w.cfg, w.store.outbox, Act(w, a).store.outbox) ==>
              UniqueIds(Act(w, a).store.outbox)
  {
    hide Transact, Deploy, Supplied, OutboxSound, Numbered, UniqueIds, NoneExposed;
    match a
    case Submit(tx) =>
      var log := TransactSteps(w, tx);
      LogOutbox(w.cfg, w.store, log);
      if UniqueIds(w.store.outbox) && NoneExposed(w.cfg, w.store.outbox, Act(w, a).store.outbox) {
        LogUnique(w.cfg, w.store, log);
      }
    case Install(d) => DeployKeeps(w, d);
    case NextBlock(_) =>
    case Configure(_, _, _, _) =>
  }

  /** No message queued along the run is exposed: what bridges queue is not on an aspect ledger when they queue it. */
  ghost predicate NeverExposed(w: World, actions: seq<Action>)
    decreases |actions|
  {
    actions == []
    || (NoneExposed(w.cfg, w.store.outbox, Act(w, actions[0]).store.outbox)
        && NeverExposed(Act(w, actions[0]), actions[1..]))
  }

  /** Over every run in which bridges queue native assets, each message has an id of its own. */
  lemma {:induction false} RunUnique(w: World, actions: seq<Action>)
    requires Sound(w) && UniqueIds(w.store.outbox) && NeverExposed(w, actions)
    ensures UniqueIds(Run(w, actions).store.outbox)
    decreases |actions|
  {
    hide Sound, Act, UniqueIds;
    if actions != [] {
      ActSound(w, actions[0]);
      ActOutbox(w, actions[0]);
      RunUnique(Act(w, actions[0]), actions[1..]);
    }
  }

  // -------------------------------------------------------- permits and unbonding

  lemma ActGrown(w: World, a: Action)
    requires Sound(w)
    ensures Grown(w.store, Act(w, a).store)
  {
    hide Transact, Supplied, OutboxSound, Numbered, Owned, Deployable, Endow, Zeroed;
    if a.Submit? {
      var log := TransactSteps(w, a.tx);
      LogGrown(w.cfg, w.store, log);
    }
  }

  /** Over every run grants stay recorded and used certificates stay used. */
  lemma {:induction false} RunGrown(w: World, actions: seq<Action>)
    requires Sound(w)
    ensures Grown(w.store, Run(w, actions).store)
    decreases |actions|
  {
    hide Sound, Act;
    if actions != [] {
      ActSound(w, actions[0]);
      ActGrown(w, actions[0]);
      RunGrown(Act(w, actions[0]), actions[1..]);
    }
  }

  /** A committed transaction has done what its target's method does. */
  lemma CommittedCall(w: World, tx: Transaction)
    requires Transact(w, tx).1.Committed?
    ensures tx.target in w.cfg.contracts
    ensures Dispatch(w.cfg, w.store, tx, tx.sender, w.cfg.contracts[tx.target], [] + [tx.target]).Ok?
    ensures Transact(w, tx).0.store
              == Dispatch(w.cfg, w.store, tx, tx.sender, w.cfg.contracts[tx.target], [] + [tx.target]).value.0
    ensures Transact(w, tx).0.cfg == w.cfg
  {
    hide Dispatch;
  }

  lemma PermitRefused(cfg: Config, s: Store, tx: Transaction, later: Config, s': Store, again: Transaction)
    requires TokenPermit(cfg, s, tx).Ok? && later.chainId == cfg.chainId && again.target == tx.target
             && again.args == tx.args
    requires TokenPermit(cfg, s, tx).value.0.certificates <= s'.certificates
    ensures TokenPermit(later, s', again) == Err(CertificateReplay)
  {
    hide PermitNonce;
  }

  /**
    A permit is good once: after a committed permit the same certificate is refused in every later state of
    every run, and in every state a call passes through from there.
  */
  lemma PermitOnce(w: World, tx: Transaction, actions: seq<Action>, log: seq<Step>, again: Transaction)
    requires Sound(w) && IsToken(w.cfg, tx.target) && tx.selector.Permit? && Transact(w, tx).1.Committed?
    requires again.target == tx.target && again.args == tx.args
    requires var w2 := Run(Transact(w, tx).0, actions); RunSteps(w2.cfg, w2.store, log).Ok?
    ensures var w2 := Run(Transact(w, tx).0, actions);
            TokenPermit(w2.cfg, RunSteps(w2.cfg, w2.store, log).value, again) == Err(CertificateReplay)
  {
    hide Sound, Run, Transact, TokenPermit;
    var w1 := Transact(w, tx).0;
    CommittedCall(w, tx);
    TransactSound(w, tx);
    RunContracts(w1, actions, tx.target);
    RunGrown(w1, actions);
    var w2 := Run(w1, actions);
    LogGrown(w2.cfg, w2.store, log);
    PermitRefused(w.cfg, w.store, tx, w2.cfg, RunSteps(w2.cfg, w2.store, log).value, again);
  }

  lemma DeployWaits(w: World, d: Deployment, c: Id, staker: Id, asset: Id)
    requires Sound(w) && c in w.cfg.contracts
    ensures ReadyOf(Deploy(w, d).store.storage, c, staker, asset) == ReadyOf(w.store.storage, c, staker, asset)
    ensures ParkedOf(Deploy(w, d).store.storage, c, staker, asset) == ParkedOf(w.store.storage, c, staker, asset)
  {
    hide Deploy;
    DeployKeeps(w, d);
  }

  /** The contract's amounts parked for the staker wait at most one full delay from now. */
  ghost predicate Patient(w: World, c: Id, staker: Id)
    requires IsStaking(w.cfg, c)
  {
    ReadyOf(w.store.storage, c, staker, w.cfg.contracts[c].stakingAsset)
      <= w.cfg.height + w.cfg.contracts[c].unbondingDelay
  }

  lemma ActWaits(w: World, a: Action, c: Id, staker: Id)
    requires Sound(w) && IsStaking(w.cfg, c) && Patient(w, c, staker) && (a.NextBlock? ==> w.cfg.height <= a.height)
    ensures IsStaking(Act(w, a).cfg, c) && Act(w, a).cfg.contracts[c] == w.cfg.contracts[c]
            && Patient(Act(w, a), c, staker)
    ensures Waits(w.store.storage, Act(w, a).store.storage, c, staker, w.cfg.contracts[c].stakingAsset, w.cfg.height)
  {
    hide Transact, Deploy, Supplied, OutboxSound, Numbered, Owned;
    ActContracts(w, a, c);
    match a
    case Submit(tx) =>
      var log := TransactSteps(w, tx);
      LogWaits(w.cfg, w.store, log, c, staker);
    case Install(d) =>
      DeployWaits(w, d, c, staker, w.cfg.contracts[c].stakingAsset);
      DeployHeight(w, d);
    case NextBlock(_) =>
    case Configure(_, _, _, _) =>
  }

  /** Over every forward run, nothing parked is released while the height is below the one it waits for. */
  lemma {:induction false} RunWaits(w: World, actions: seq<Action>, c: Id, staker: Id)
    requires Sound(w) && IsStaking(w.cfg, c) && Patient(w, c, staker) && Forward(w.cfg.height, actions)
    ensures IsStaking(Run(w, actions).cfg, c) && Run(w, actions).cfg.contracts[c] == w.cfg.contracts[c]
    ensures Patient(Run(w, actions), c, staker) && w.cfg.height <= Run(w, actions).cfg.height
    ensures var asset, m, w' := w.cfg.contracts[c].stakingAsset, w.store.storage, Run(w, actions);
            && ReadyOf(m, c, staker, asset) <= ReadyOf(w'.store.storage, c, staker, asset)
            && (w'.cfg.height < ReadyOf(m, c, staker, asset) ==>
                  ParkedOf(m, c, staker, asset) <= ParkedOf(w'.store.storage, c, staker, asset))
    decreases |actions|
  {
    hide Sound, Act;
    if actions != [] {
      ActSound(w, actions[0]);
      ActWaits(w, actions[0], c, staker);
      ActHeight(w, actions[0]);
      RunWaits(Act(w, actions[0]), actions[1..], c, staker);
    }
  }

  /**
    After a committed request, in every state of every forward run in which the delay has not passed, nothing
    of what was pending has been released, and every attempt to complete is refused, also in a state a call
    passes through from there.
  */
  lemma RequestLocks(w: World, tx: Transaction, kind: Kind, actions: seq<Action>, log: seq<Step>, next: Transaction,
                     stack: seq<Id>)
    requires Sound(w) && tx.target in w.cfg.contracts && w.cfg.contracts[tx.target] == kind && kind.Staking?
    requires tx.selector.RequestUnstake? && Transact(w, tx).1.Committed? && next.target == tx.target
    requires var w1 := Transact(w, tx).0;
             var w2 := Run(w1, actions);
             && Forward(w.cfg.height, actions) && w2.cfg.height < w.cfg.height + kind.unbondingDelay
             && RunSteps(w2.cfg, w2.store, log).Ok?
    ensures var w1 := Transact(w, tx).0;
            var w2 := Run(w1, actions);
            var s := RunSteps(w2.cfg, w2.store, log).value;
            && ParkedOf(w1.store.storage, tx.target, tx.sender, kind.stakingAsset)
               <= ParkedOf(s.storage, tx.target, tx.sender, kind.stakingAsset)
            && StakingComplete(w2.cfg, s, next, tx.sender, kind, stack).Err?
  {
    hide StakingRequest, StakingComplete, Sound, Run, Transact;
    var w1 := Transact(w, tx).0;
    var w2 := Run(w1, actions);
    CommittedCall(w, tx);
    TransactSound(w, tx);
    RequestReady(w.cfg, w.store, tx, tx.sender, kind);
    RunWaits(w1, actions, tx.target, tx.sender);
    LogWaits(w2.cfg, w2.store, log, tx.target, tx.sender);
    CompleteRefused(w2.cfg, RunSteps(w2.cfg, w2.store, log).value, next, tx.sender, kind, stack);
  }

  lemma CompleteRefused(cfg: Config, s: Store, tx: Transaction, staker: Id, kind: Kind, stack: seq<Id>)
    requires kind.Staking? && cfg.height < ReadyOf(s.storage, tx.target, staker, kind.stakingAsset)
    ensures StakingComplete(cfg, s, tx, staker, kind, stack).Err?
  {
    hide TransferAsset, ResolveLedger, PendingBalanced;
  }

  // --------------------------------------------------------------- from the beginning

  /** While a staking contract is not deployed no one earns from it. */
  lemma {:induction false} NothingBefore(w: World, actions: seq<Action>, n: nat, c: Id, staker: Id, asset: Id,
                                         rate: nat)
    requires Sound(w) && n <= |actions| && forall i | 0 <= i < n :: c !in Run(w, actions[..i]).cfg.contracts
    ensures RewardsOver(w, actions, c, staker, asset, rate)
              == RewardsOver(Run(w, actions[..n]), actions[n..], c, staker, asset, rate)
    decreases n
  {
    hide Sound, Act;
    if n == 0 {
      assert actions[..0] == [] && actions[0..] == actions;
    } else {
      assert actions[..0] == [];
      assert c !in Run(w, actions[..0]).cfg.contracts;
      UndeployedIsBlank(w, c);
      ActSound(w, actions[0]);
      forall i | 0 <= i <= n - 1 ensures Run(Act(w, actions[0]), actions[1..][..i]) == Run(w, actions[..i + 1]) {
        assert actions[..i + 1][1..] == actions[1..][..i];
      }
      assert actions[1..][n - 1..] == actions[n..];
      NothingBefore(Act(w, actions[0]), actions[1..], n - 1, c, staker, asset, rate);
    }
  }

  lemma {:induction false} NoClaims(events: seq<Event>, c: Id, staker: Id, asset: Id)
    requires forall i | 0 <= i < |events| :: events[i].contract != c
    ensures Claimed(events, c, staker, asset) == 0
  {
    if events != [] { NoClaims(events[..|events| - 1], c, staker, asset); }
  }

  lemma NewbornEarnsNothing(w: World, c: Id, staker: Id, asset: Id, rate: nat)
    requires Newborn(w, c)
    ensures Earned(w.store, c, staker, asset, rate, w.cfg.height) == 0
            && LastOf(w.store.storage, c, staker, asset) <= w.cfg.height
  {
    NoClaims(w.store.events, c, staker, asset);
  }

  lemma {:induction false} ForwardRest(height: nat, w: World, actions: seq<Action>, n: nat)
    requires Sound(w) && w.cfg.height == height && Forward(height, actions) && n <= |actions|
    ensures Forward(Run(w, actions[..n]).cfg.height, actions[n..])
    decreases n
  {
    hide Sound, Act;
    if n == 0 {
      assert actions[..0] == [] && actions[0..] == actions;
    } else {
      ActSound(w, actions[0]);
      ActHeight(w, actions[0]);
      ForwardRest(Act(w, actions[0]).cfg.height, Act(w, actions[0]), actions[1..], n - 1);
      assert actions[..n][1..] == actions[1..][..n - 1] && actions[1..][n - 1..] == actions[n..];
    }
  }

  /**
    From genesis, over every forward run and for every staking contract that exists at its end: what a staker
    has been paid and is still owed is the sum over all blocks of stake times rate.
  */
  lemma EarnedFromGenesis(w: World, actions: seq<Action>, c: Id, staker: Id)
    requires Genesis(w) && Forward(w.cfg.height, actions) && IsStaking(Run(w, actions).cfg, c)
    ensures var w' := Run(w, actions);
            var asset, rate := w'.cfg.contracts[c].stakingAsset, w'.cfg.contracts[c].rewardPerBlock;
            && Earned(w'.store, c, staker, asset, rate, w'.cfg.height)
               == RewardsOver(w, actions, c, staker, asset, rate)
            && LastOf(w'.store.storage, c, staker, asset) <= w'.cfg.height && Patient(w', c, staker)
  {
    hide Sound, Act, Run, Earned, Newborn, RewardsOver;
    GenesisSound(w);
    var n := Birth(w, actions, c);
    var w1, w' := Run(w, actions[..n + 1]), Run(w, actions);
    RunContracts(w1, actions[n + 1..], c);
    var asset, rate := w'.cfg.contracts[c].stakingAsset, w'.cfg.contracts[c].rewardPerBlock;
    ForwardRest(w.cfg.height, w, actions, n + 1);
    NewbornEarnsNothing(w1, c, staker, asset, rate);
    NewbornIsPatient(w1, c, staker);
    RunFair(w1, actions[n + 1..], c, staker);
    RunWaits(w1, actions[n + 1..], c, staker);
    NothingBefore(w, actions, n + 1, c, staker, asset, rate);
  }

  lemma NewbornIsPatient(w: World, c: Id, staker: Id)
    requires Newborn(w, c) && IsStaking(w.cfg, c)
    ensures Patient(w, c, staker)
  {
  }

  lemma {:induction false} NoRedemptions(events: seq<Event>, c: Id)
    requires forall i | 0 <= i < |events| :: events[i].contract != c
    ensures Redemptions(events, c) == []
  {
    if events != [] { NoRedemptions(events[..|events| - 1], c); }
  }

  lemma {:induction false} HonestRest(w: World, actions: seq<Action>, n: nat, source: Id, outbox: seq<Message>)
    requires n <= |actions| && HonestRun(w, actions, source, outbox)
    ensures HonestRun(Run(w, actions[..n]), actions[n..], source, outbox)
    decreases n
  {
    hide Act, SignedHonestly;
    if n == 0 {
      assert actions[..0] == [] && actions[0..] == actions;
    } else {
      HonestRest(Act(w, actions[0]), actions[1..], n - 1, source, outbox);
      assert actions[..n][1..] == actions[1..][..n - 1] && actions[1..][n - 1..] == actions[n..];
    }
  }

  /**
    Conservation from genesis: for every bridge that exists at the end of a run of the destination, its
    redemptions belong to distinct messages that the source queued for it.
  */
  lemma RedeemedFromGenesis(source: World, sourceRun: seq<Action>, w: World, actions: seq<Action>, c: Id, asset: Id)
    returns (at: seq<nat>)
    requires Genesis(w) && IsBridge(Run(w, actions).cfg, c)
    requires HonestRun(w, actions, Run(w, actions).cfg.contracts[c].sourceChain, Run(source, sourceRun).store.outbox)
    ensures var w', outbox := Run(w, actions), Run(source, sourceRun).store.outbox;
            var rs := Redemptions(w'.store.events, c);
            && |at| == |rs|
            && (forall i | 0 <= i < |rs| :: at[i] < |outbox| && Carries(outbox[at[i]], w'.cfg.chainId, c, rs[i]))
            && (forall i, j | 0 <= i < j < |rs| :: at[i] != at[j])
            && RedeemedTotal(rs, asset) <= QueuedTotal(outbox, w'.cfg.chainId, c, asset)
  {
    hide Sound, Run, HonestRun, Redemptions, QueuedTotal, RedeemedTotal, Carries;
    GenesisSound(w);
    var n := Birth(w, actions, c);
    var w1 := Run(w, actions[..n + 1]);
    RunContracts(w1, actions[n + 1..], c);
    HonestRest(w, actions, n + 1, Run(w, actions).cfg.contracts[c].sourceChain, Run(source, sourceRun).store.outbox);
    NoRedemptions(w1.store.events, c);
    at := RedeemedWithinQueued(source, sourceRun, w1, actions[n + 1..], c, asset);
  }
}
