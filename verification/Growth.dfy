/**
  What a log of steps can only add to: grants and certificates are kept, parked amounts wait for
  their height, and only deployed contracts own keys, events and messages.
*/
module Growth {
  import opened Common
  import opened Ledger
  import opened Executor
  import opened Steps

  // -------------------------------------------------------- grants and certificates

  /** Grants stay recorded and used certificates stay used. */
  ghost predicate Grown(s: Store, s': Store) {
    s.registry.Keys <= s'.registry.Keys && s.certificates <= s'.certificates
  }

  lemma ClaimGrown(cfg: Config, s: Store, c: Id, staker: Id, t: Id, txHash: string)
    requires ApplyClaim(cfg, s, c, staker, t, txHash).Ok?
    ensures Grown(s, ApplyClaim(cfg, s, c, staker, t, txHash).value)
  {
    hide MintNative, NativeLedgers;
    var a := cfg.contracts[c].stakingAsset;
    var rewardKey := StakingRewardBalance(c, staker, a);
    var claimed := Get(s.storage, rewardKey);
    if claimed != 0 { MintWrites(Put(s, rewardKey, 0), t, staker, a, claimed); }
  }

  lemma StepGrown(cfg: Config, s: Store, step: Step)
    requires ApplyStep(cfg, s, step).Ok?
    ensures Grown(s, ApplyStep(cfg, s, step).value)
  {
    hide TransferNative, AccrueRewards, RewardsDue, MintNative, Quote, BridgeCertified, NativeLedgers, ApplyClaim;
    match step
    case Move(t, from, to, a, amount) => TransferWrites(s, t, from, to, a, amount);
    case Accrue(c, staker) => var due := AccrueWrites(cfg, s, c, staker);
    case Claim(c, staker, t, txHash) => ClaimGrown(cfg, s, c, staker, t, txHash);
    case Redeem(_, t, _, recipient, a, amount, _, _) => MintWrites(s, t, recipient, a, amount);
    case _ =>
  }

  lemma {:induction false} LogGrown(cfg: Config, s: Store, log: seq<Step>)
    requires RunSteps(cfg, s, log).Ok?
    ensures Grown(s, RunSteps(cfg, s, log).value)
    decreases |log|
  {
    if log != [] {
      StepGrown(cfg, s, log[0]);
      LogGrown(cfg, ApplyStep(cfg, s, log[0]).value, log[1..]);
    }
  }

  // ------------------------------------------------------------------ parked amounts

  function ReadyOf(m: Storage, c: Id, staker: Id, asset: Id): nat {
    Get(m, UnbondReadyHeight(c, staker, asset))
  }

  function ParkedOf(m: Storage, c: Id, staker: Id, asset: Id): nat {
    Get(m, PendingUnbond(c, staker, asset))
  }

  /** The height parked amounts wait for does not go back, and before it nothing is released. */
  ghost predicate Waits(m: Storage, m': Storage, c: Id, staker: Id, asset: Id, height: nat) {
    && ReadyOf(m, c, staker, asset) <= ReadyOf(m', c, staker, asset)
    && (height < ReadyOf(m, c, staker, asset) ==> ParkedOf(m, c, staker, asset) <= ParkedOf(m', c, staker, asset))
  }

  /** Steps other than parking and releasing leave what is parked alone. */
  lemma ParkedKept(cfg: Config, s: Store, step: Step, c: Id, staker: Id, asset: Id)
    requires ApplyStep(cfg, s, step).Ok? && !step.Park? && !step.Release?
    ensures var m, m' := s.storage, ApplyStep(cfg, s, step).value.storage;
            ReadyOf(m', c, staker, asset) == ReadyOf(m, c, staker, asset)
              && ParkedOf(m', c, staker, asset) == ParkedOf(m, c, staker, asset)
  {
    hide TransferNative, AccrueRewards, MintNative, RewardsDue, BridgeCertified, NativeLedgers, Quote;
    match step
    case Move(t, from, to, a, amount) => TransferWrites(s, t, from, to, a, amount);
    case Accrue(d, u) => var due := AccrueWrites(cfg, s, d, u);
    case Claim(d, u, t, _) =>
      var a := cfg.contracts[d].stakingAsset;
      var rewardKey := StakingRewardBalance(d, u, a);
      var claimed := Get(s.storage, rewardKey);
      if claimed != 0 { MintWrites(Put(s, rewardKey, 0), t, u, a, claimed); }
    case Redeem(_, t, _, recipient, a, amount, _, _) => MintWrites(s, t, recipient, a, amount);
    case _ =>
  }

  lemma StepWaits(cfg: Config, s: Store, step: Step, c: Id, staker: Id)
    requires IsStaking(cfg, c) && ApplyStep(cfg, s, step).Ok?
    requires ReadyOf(s.storage, c, staker, cfg.contracts[c].stakingAsset)
               <= cfg.height + cfg.contracts[c].unbondingDelay
    ensures var asset, s' := cfg.contracts[c].stakingAsset, ApplyStep(cfg, s, step).value;
            && Waits(s.storage, s'.storage, c, staker, asset, cfg.height)
            && ReadyOf(s'.storage, c, staker, asset) <= cfg.height + cfg.contracts[c].unbondingDelay
  {
    if !step.Park? && !step.Release? {
      hide ApplyStep;
      ParkedKept(cfg, s, step, c, staker, cfg.contracts[c].stakingAsset);
    }
  }

  /** Whatever a call tree does, nothing parked is released before its height. */
  lemma {:induction false} LogWaits(cfg: Config, s: Store, log: seq<Step>, c: Id, staker: Id)
    requires IsStaking(cfg, c) && RunSteps(cfg, s, log).Ok?
    requires ReadyOf(s.storage, c, staker, cfg.contracts[c].stakingAsset)
               <= cfg.height + cfg.contracts[c].unbondingDelay
    ensures var asset, s' := cfg.contracts[c].stakingAsset, RunSteps(cfg, s, log).value;
            && Waits(s.storage, s'.storage, c, staker, asset, cfg.height)
            && ReadyOf(s'.storage, c, staker, asset) <= cfg.height + cfg.contracts[c].unbondingDelay
    decreases |log|
  {
    if log != [] {
      StepWaits(cfg, s, log[0], c, staker);
      LogWaits(cfg, ApplyStep(cfg, s, log[0]).value, log[1..], c, staker);
    }
  }

  // -------------------------------------------------------------------- ownership

  ghost predicate KeysOwned(cfg: Config, m: Storage) {
    forall k | k in m :: k.contract in cfg.contracts
  }

  ghost predicate EventsOwned(cfg: Config, events: seq<Event>) {
    forall i | 0 <= i < |events| :: events[i].contract in cfg.contracts
  }

  ghost predicate MessagesOwned(cfg: Config, outbox: seq<Message>) {
    forall i | 0 <= i < |outbox| :: outbox[i].sourceContract in cfg.contracts
  }

  /** Keys, events and messages belong to deployed contracts. */
  ghost predicate Owned(cfg: Config, s: Store) {
    KeysOwned(cfg, s.storage) && EventsOwned(cfg, s.events) && MessagesOwned(cfg, s.outbox)
  }

  lemma PutOwned(cfg: Config, s: Store, k: StateKey, v: nat)
    requires Owned(cfg, s) && k.contract in cfg.contracts
    ensures Owned(cfg, Put(s, k, v))
  {
  }

  lemma PutsOwned(cfg: Config, s: Store, k: StateKey, v: nat, k': StateKey, v': nat)
    requires Owned(cfg, s) && k.contract in cfg.contracts && k'.contract in cfg.contracts
    ensures Owned(cfg, Put(Put(s, k, v), k', v'))
  {
    hide Owned;
    PutOwned(cfg, s, k, v);
    PutOwned(cfg, Put(s, k, v), k', v');
  }

  lemma EmitOwned(cfg: Config, s: Store, c: Id, txHash: string, payload: Payload)
    requires Owned(cfg, s) && c in cfg.contracts
    ensures Owned(cfg, Emit(s, c, txHash, payload))
  {
  }

  lemma MintOwned(cfg: Config, s: Store, token: Id, to: Id, asset: Id, amount: nat)
    requires Owned(cfg, s) && token in NativeLedgers(cfg, s.storage, asset)
             && MintNative(s, token, to, asset, amount).Ok?
    ensures Owned(cfg, MintNative(s, token, to, asset, amount).value)
  {
    hide Owned, MintNative;
    MintWrites(s, token, to, asset, amount);
    var supplyKey, toKey := TotalSupply(token, asset), Balance(token, to, asset);
    PutsOwned(cfg, s, supplyKey, Get(s.storage, supplyKey) + amount, toKey, Get(s.storage, toKey) + amount);
  }

  lemma MoveOwned(cfg: Config, s: Store, token: Id, from: Id, to: Id, asset: Id, amount: nat)
    requires Owned(cfg, s) && ApplyMove(cfg, s, token, from, to, asset, amount).Ok?
    ensures Owned(cfg, ApplyMove(cfg, s, token, from, to, asset, amount).value)
  {
    hide Owned, TransferNative;
    TransferWrites(s, token, from, to, asset, amount);
    var fromKey, toKey := Balance(token, from, asset), Balance(token, to, asset);
    PutsOwned(cfg, s, fromKey, Get(s.storage, fromKey) - amount, toKey, Get(s.storage, toKey) + amount);
  }

  lemma AccrueOwned(cfg: Config, s: Store, c: Id, staker: Id)
    requires Owned(cfg, s) && ApplyAccrue(cfg, s, c, staker).Ok?
    ensures Owned(cfg, ApplyAccrue(cfg, s, c, staker).value)
  {
    hide Owned, AccrueRewards, RewardsDue;
    var due := AccrueWrites(cfg, s, c, staker);
    var asset := cfg.contracts[c].stakingAsset;
    var rewardKey, lastKey := StakingRewardBalance(c, staker, asset), StakingLastRewardHeight(c, staker, asset);
    PutOwned(cfg, s, rewardKey, Get(s.storage, rewardKey) + due);
    PutOwned(cfg, if due == 0 then s else Put(s, rewardKey, Get(s.storage, rewardKey) + due), lastKey, cfg.height);
  }

  lemma ClaimOwned(cfg: Config, s: Store, c: Id, staker: Id, token: Id, txHash: string)
    requires Owned(cfg, s) && ApplyClaim(cfg, s, c, staker, token, txHash).Ok?
    ensures Owned(cfg, ApplyClaim(cfg, s, c, staker, token, txHash).value)
  {
    hide Owned, MintNative, NativeLedgers;
    var asset := cfg.contracts[c].stakingAsset;
    var rewardKey := StakingRewardBalance(c, staker, asset);
    var claimed := Get(s.storage, rewardKey);
    PutOwned(cfg, s, rewardKey, 0);
    var s1 := Put(s, rewardKey, 0);
    if claimed != 0 { MintOwned(cfg, s1, token, staker, asset, claimed); }
    var s2 := if claimed == 0 then s1 else MintNative(s1, token, staker, asset, claimed).value;
    EmitOwned(cfg, s2, c, txHash, StakingRewardsClaimed(staker, asset, claimed));
  }

  lemma RedeemOwned(cfg: Config, s: Store, c: Id, token: Id, id: string, recipient: Id, asset: Id, amount: nat,
                    certificate: string, txHash: string)
    requires Owned(cfg, s) && ApplyRedeem(cfg, s, c, token, id, recipient, asset, amount, certificate, txHash).Ok?
    ensures Owned(cfg, ApplyRedeem(cfg, s, c, token, id, recipient, asset, amount, certificate, txHash).value)
  {
    hide Owned, MintNative, NativeLedgers, BridgeCertified;
    MintOwned(cfg, s, token, recipient, asset, amount);
    var s1 := MintNative(s, token, recipient, asset, amount).value;
    PutOwned(cfg, s1, BridgeMessageConsumed(c, id), 1);
    EmitOwned(cfg, Put(s1, BridgeMessageConsumed(c, id), 1), c, txHash,
              BridgeMessageRedeemed(id, recipient, asset, amount));
  }

  lemma SwapOwned(cfg: Config, s: Store, pool: Id, input: Id, amountIn: nat, amountOut: nat)
    requires Owned(cfg, s) && ApplySwap(cfg, s, pool, input, amountIn, amountOut).Ok?
    ensures Owned(cfg, ApplySwap(cfg, s, pool, input, amountIn, amountOut).value)
  {
    hide Owned, Quote;
    var inKey, outKey := Reserve(pool, input), Reserve(pool, OutputOf(cfg.contracts[pool], input));
    PutsOwned(cfg, s, inKey, Get(s.storage, inKey) + amountIn, outKey,
              SaturatingSub(Get(s.storage, outKey), amountOut));
  }

  lemma AddOwned(cfg: Config, s: Store, pool: Id, amountA: nat, amountB: nat)
    requires Owned(cfg, s) && ApplyAdd(cfg, s, pool, amountA, amountB).Ok?
    ensures Owned(cfg, ApplyAdd(cfg, s, pool, amountA, amountB).value)
  {
    hide Owned;
    var keyA, keyB := Reserve(pool, cfg.contracts[pool].assetA), Reserve(pool, cfg.contracts[pool].assetB);
    PutsOwned(cfg, s, keyA, Get(s.storage, keyA) + amountA, keyB, Get(s.storage, keyB) + amountB);
  }

  lemma ParkOwned(cfg: Config, s: Store, c: Id, staker: Id, released: nat)
    requires Owned(cfg, s) && ApplyPark(cfg, s, c, staker, released).Ok?
    ensures Owned(cfg, ApplyPark(cfg, s, c, staker, released).value)
  {
    hide Owned;
    var kind := cfg.contracts[c];
    var pendingKey, readyKey := PendingUnbond(c, staker, kind.stakingAsset),
      UnbondReadyHeight(c, staker, kind.stakingAsset);
    PutsOwned(cfg, s, pendingKey, Get(s.storage, pendingKey) + released, readyKey, cfg.height + kind.unbondingDelay);
  }

  lemma StepOwned(cfg: Config, s: Store, step: Step)
    requires Owned(cfg, s) && ApplyStep(cfg, s, step).Ok?
    ensures Owned(cfg, ApplyStep(cfg, s, step).value)
  {
    hide ApplyMove, ApplySwap, ApplyAdd, ApplyAccrue, ApplyClaim, ApplyRedeem, ApplyPark;
    match step
    case Move(token, from, to, asset, amount) => MoveOwned(cfg, s, token, from, to, asset, amount);
    case Own(_, key, value) => PutOwned(cfg, s, key, value);
    case SwapReserves(pool, input, amountIn, amountOut) => SwapOwned(cfg, s, pool, input, amountIn, amountOut);
    case AddReserves(pool, amountA, amountB) => AddOwned(cfg, s, pool, amountA, amountB);
    case Accrue(c, staker) => AccrueOwned(cfg, s, c, staker);
    case Park(c, staker, released) => ParkOwned(cfg, s, c, staker, released);
    case Claim(c, staker, token, txHash) => ClaimOwned(cfg, s, c, staker, token, txHash);
    case Redeem(c, token, id, recipient, asset, amount, certificate, txHash) =>
      RedeemOwned(cfg, s, c, token, id, recipient, asset, amount, certificate, txHash);
    case _ =>
  }

  /** Whatever a call tree does, it writes, notes and queues for deployed contracts only. */
  lemma {:induction false} LogOwned(cfg: Config, s: Store, log: seq<Step>)
    requires Owned(cfg, s) && RunSteps(cfg, s, log).Ok?
    ensures Owned(cfg, RunSteps(cfg, s, log).value)
    decreases |log|
  {
    hide Owned;
    if log != [] {
      StepOwned(cfg, s, log[0]);
      LogOwned(cfg, ApplyStep(cfg, s, log[0]).value, log[1..]);
    }
  }
}
