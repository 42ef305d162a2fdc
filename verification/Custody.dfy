/** Staking and lending on native assets: what a contract holds covers what it records. */
module Custody {
  import opened Common
  import opened Ledger
  import opened Executor
  import opened Steps
  import opened Supply
  import opened Linearize
  import opened Pools

  // --------------------------------------------------------------------- staking

  /** Stakes, amounts waiting to be released, and penalties kept. */
  function Obligations(m: Storage, c: Id, asset: Id): nat {
    Get(m, TotalStaked(c, asset)) + Get(m, TotalPendingUnbond(c, asset)) + Get(m, StakingPenaltyCollected(c, asset))
  }

  /** What the staking contract holds beyond its obligations. */
  function Slack(m: Storage, token: Id, c: Id, asset: Id): int {
    Surplus(m, token, c, asset, Obligations(m, c, asset))
  }

  /** The asset is kept by one native ledger. */
  ghost predicate KeptBy(cfg: Config, m: Storage, asset: Id, token: Id) {
    NativeLedgers(cfg, m, asset) == {token} && !AspectLedger(cfg, asset)
  }

  lemma KeptByResolves(cfg: Config, s: Store, asset: Id, token: Id)
    requires KeptBy(cfg, s.storage, asset, token)
    ensures ResolveLedger(cfg, s, asset) == Ok(Native(token)) && IsToken(cfg, token)
  {
    assert token in NativeLedgers(cfg, s.storage, asset);
    var natives := NativeLedgers(cfg, s.storage, asset);
    assert |natives| == 1;
  }

  /** Writes outside the ledgers leave the ledgers where they are. */
  lemma KeptByPut(cfg: Config, s: Store, k: StateKey, v: nat, asset: Id, token: Id)
    requires KeptBy(cfg, s.storage, asset, token) && !k.TotalSupply?
    ensures KeptBy(cfg, Put(s, k, v).storage, asset, token)
  {
    assert NativeLedgers(cfg, Put(s, k, v).storage, asset) == NativeLedgers(cfg, s.storage, asset);
  }

  lemma AccruedKept(cfg: Config, s: Store, c: Id, staker: Id, a: Id, height: nat, due: nat, asset: Id, token: Id)
    requires KeptBy(cfg, s.storage, asset, token)
    ensures KeptBy(cfg, Accrued(s, c, staker, a, height, due).storage, asset, token)
  {
    hide KeptBy;
    var rewardKey := StakingRewardBalance(c, staker, a);
    var s1 := if due == 0 then s else Put(s, rewardKey, Get(s.storage, rewardKey) + due);
    if due != 0 { KeptByPut(cfg, s, rewardKey, Get(s.storage, rewardKey) + due, asset, token); }
    KeptByPut(cfg, s1, StakingLastRewardHeight(c, staker, a), height, asset, token);
  }

  /** An accrual touches neither holdings nor obligations, nor where an asset is kept. */
  lemma AccrualNeutral(cfg: Config, s: Store, c: Id, staker: Id, kind: Kind, s1: Store, token: Id)
    requires kind.Staking? && Supplied(cfg, s.storage)
    requires AccrueRewards(cfg, s, StakingFrame(c, staker, kind.stakingAsset), c, staker, kind.stakingAsset,
                           kind.rewardPerBlock) == Ok(s1)
    ensures Slack(s1.storage, token, c, kind.stakingAsset) == Slack(s.storage, token, c, kind.stakingAsset)
    ensures Supplied(cfg, s1.storage)
    ensures KeptBy(cfg, s.storage, kind.stakingAsset, token) ==> KeptBy(cfg, s1.storage, kind.stakingAsset, token)
  {
    hide Supplied, KeptBy, AccrueRewards, RewardsDue;
    var asset := kind.stakingAsset;
    AccrualWrites(cfg, s, c, staker, asset, kind.rewardPerBlock);
    var due := RewardsDue(cfg, s.storage, c, staker, asset, kind.rewardPerBlock).value;
    AccruedSupplied(cfg, s, c, staker, asset, cfg.height, due);
    if KeptBy(cfg, s.storage, asset, token) { AccruedKept(cfg, s, c, staker, asset, cfg.height, due, asset, token); }
  }

  lemma StakeParts(cfg: Config, s: Store, tx: Transaction, staker: Id, kind: Kind, stack: seq<Id>)
    returns (s1: Store, s2: Store, ledger: LedgerRef)
    requires kind.Staking? && StakingStake(cfg, s, tx, staker, kind, stack).Ok?
    ensures |tx.args| == 2 && tx.args[1].AmountArg? && tx.args[1].amount > 0
    ensures var c, asset, amount := tx.target, kind.stakingAsset, tx.args[1].amount;
            var frame := StakingFrame(c, staker, asset);
            && AccrueRewards(cfg, s, frame, c, staker, asset, kind.rewardPerBlock) == Ok(s1)
            && ResolveLedger(cfg, s1, asset) == Ok(ledger)
            && TransferAsset(cfg, s1, tx, ledger, staker, c, asset, amount, stack) == Ok(s2)
            && StakingStake(cfg, s, tx, staker, kind, stack)
               == SettleStake(s2, frame, c, staker, asset, Get(s1.storage, StakeBalance(c, staker, asset)),
                              Get(s1.storage, TotalStaked(c, asset)),
                              amount, tx.txHash)
  {
    hide AccrueRewards, SettleStake, TransferAsset, ResolveLedger;
    var c, asset := tx.target, kind.stakingAsset;
    s1 := AccrueRewards(cfg, s, StakingFrame(c, staker, asset), c, staker, asset, kind.rewardPerBlock).value;
    ledger := ResolveLedger(cfg, s1, asset).value;
    s2 := TransferAsset(cfg, s1, tx, ledger, staker, c, asset, tx.args[1].amount, stack).value;
  }

  /** A native transfer moves exactly the amount. */
  lemma Moved(cfg: Config, s: Store, tx: Transaction, token: Id, from: Id, to: Id, asset: Id, amount: nat,
              stack: seq<Id>, s': Store)
    requires Supplied(cfg, s.storage) && amount > 0
             && TransferAsset(cfg, s, tx, Native(token), from, to, asset, amount, stack) == Ok(s')
    ensures from != to
    ensures Get(s'.storage, Balance(token, from, asset)) == Get(s.storage, Balance(token, from, asset)) - amount
    ensures Get(s'.storage, Balance(token, to, asset)) == Get(s.storage, Balance(token, to, asset)) + amount
    ensures forall k: StateKey | !(k.Balance? && k.contract == token && k.asset == asset) ::
              Get(s'.storage, k) == Get(s.storage, k)
  {
    assert Balanced(s.storage, token, asset);
    TransferExact(s, token, from, to, asset, amount);
    TransferWrites(s, token, from, to, asset, amount);
  }

  lemma SettledStake(s: Store, frame: Frame, c: Id, staker: Id, asset: Id, stake: nat, total: nat, amount: nat,
                     txHash: string, token: Id)
    requires SettleStake(s, frame, c, staker, asset, stake, total, amount, txHash).Ok?
             && total == Get(s.storage, TotalStaked(c, asset))
    ensures Slack(SettleStake(s, frame, c, staker, asset, stake, total, amount, txHash).value.0.storage, token, c,
                  asset)
         == Slack(s.storage, token, c, asset) - amount
  {
    hide StakesBalanced, PendingBalanced, InScope;
  }

  /** Staking brings in as much as it promises. */
  lemma StakeKeepsSlack(cfg: Config, s: Store, tx: Transaction, staker: Id, kind: Kind, stack: seq<Id>, token: Id)
    requires kind.Staking? && Supplied(cfg, s.storage) && KeptBy(cfg, s.storage, kind.stakingAsset, token)
    requires StakingStake(cfg, s, tx, staker, kind, stack).Ok?
    ensures Slack(StakingStake(cfg, s, tx, staker, kind, stack).value.0.storage, token, tx.target, kind.stakingAsset)
         == Slack(s.storage, token, tx.target, kind.stakingAsset)
  {
    hide StakingStake, Supplied, KeptBy, AccrueRewards, TransferAsset, ResolveLedger, SettleStake;
    var c, asset := tx.target, kind.stakingAsset;
    var s1, s2, ledger := StakeParts(cfg, s, tx, staker, kind, stack);
    AccrualNeutral(cfg, s, c, staker, kind, s1, token);
    KeptByResolves(cfg, s1, asset, token);
    Moved(cfg, s1, tx, token, staker, c, asset, tx.args[1].amount, stack, s2);
    SettledStake(s2, StakingFrame(c, staker, asset), c, staker, asset, Get(s1.storage, StakeBalance(c, staker, asset)),
                 Get(s1.storage, TotalStaked(c, asset)), tx.args[1].amount, tx.txHash, token);
  }

  /** What is withdrawn is either released or kept as a penalty. */
  lemma PenaltySplits(amount: nat, bps: nat)
    requires Penalty(amount, bps).Ok?
    ensures Penalty(amount, bps).value.0 + Penalty(amount, bps).value.1 == amount
  {
    MulLess(bps, BPS, amount);
  }

  lemma WithdrawSlack(s: Store, frame: Frame, c: Id, staker: Id, asset: Id, amount: nat, penalty: nat, token: Id,
                      s': Store)
    requires CheckStake(s, c, staker, asset, amount).Ok?
             && Withdraw(s, frame, c, staker, asset, amount, penalty) == Ok(s') && penalty <= amount
    ensures Slack(s'.storage, token, c, asset) == Slack(s.storage, token, c, asset) + (amount - penalty)
  {
    hide InScope;
  }

  lemma WithdrawKept(cfg: Config, s: Store, frame: Frame, c: Id, staker: Id, a: Id, amount: nat, penalty: nat,
                     s': Store)
    requires Supplied(cfg, s.storage) && CheckStake(s, c, staker, a, amount).Ok?
             && Withdraw(s, frame, c, staker, a, amount, penalty) == Ok(s')
    ensures Supplied(cfg, s'.storage)
  {
    hide Supplied, InScope;
    var stake, total := Get(s.storage, StakeBalance(c, staker, a)), Get(s.storage, TotalStaked(c, a));
    var s1 := Put(s, StakeBalance(c, staker, a), stake - amount);
    PutElsewhere(cfg, s, StakeBalance(c, staker, a), stake - amount);
    var s2 := Put(s1, TotalStaked(c, a), total - amount);
    PutElsewhere(cfg, s1, TotalStaked(c, a), total - amount);
    if penalty != 0 {
      PutElsewhere(cfg, s2, StakingPenaltyCollected(c, a), Get(s2.storage, StakingPenaltyCollected(c, a)) + penalty);
    }
  }

  lemma UnstakeParts(cfg: Config, s: Store, tx: Transaction, staker: Id, kind: Kind, stack: seq<Id>)
    returns (s1: Store, s2: Store, s3: Store, ledger: LedgerRef, amount: nat, split: (nat, nat))
    requires kind.Staking? && StakingUnstake(cfg, s, tx, staker, kind, stack).Ok?
    ensures var c, asset := tx.target, kind.stakingAsset;
            var frame := StakingFrame(c, staker, asset);
            && AccrueRewards(cfg, s, frame, c, staker, asset, kind.rewardPerBlock) == Ok(s1)
            && CheckStake(s1, c, staker, asset, amount).Ok?
            && Penalty(amount, kind.penaltyBps) == Ok(split)
            && ResolveLedger(cfg, s1, asset) == Ok(ledger)
            && Withdraw(s1, frame, c, staker, asset, amount, split.1) == Ok(s2)
            && (if split.0 == 0 then Ok(s2) else TransferAsset(cfg, s2, tx, ledger, c, staker, asset, split.0, stack))
               == Ok(s3)
            && StakingUnstake(cfg, s, tx, staker, kind, stack).value.0 == Emit(s3, c, tx.txHash, Notice("unstaked"))
  {
    hide AccrueRewards, Withdraw, TransferAsset, ResolveLedger, StakesBalanced, PendingBalanced, Penalty;
    var c, asset := tx.target, kind.stakingAsset;
    amount := tx.args[1].amount;
    s1 := AccrueRewards(cfg, s, StakingFrame(c, staker, asset), c, staker, asset, kind.rewardPerBlock).value;
    split := Penalty(amount, kind.penaltyBps).value;
    ledger := ResolveLedger(cfg, s1, asset).value;
    s2 := Withdraw(s1, StakingFrame(c, staker, asset), c, staker, asset, amount, split.1).value;
    s3 := if split.0 == 0 then s2 else TransferAsset(cfg, s2, tx, ledger, c, staker, asset, split.0, stack).value;
  }

  /** Unstaking pays out what is no longer promised. */
  lemma UnstakeKeepsSlack(cfg: Config, s: Store, tx: Transaction, staker: Id, kind: Kind, stack: seq<Id>, token: Id)
    requires kind.Staking? && Supplied(cfg, s.storage) && KeptBy(cfg, s.storage, kind.stakingAsset, token)
    requires StakingUnstake(cfg, s, tx, staker, kind, stack).Ok?
    ensures Slack(StakingUnstake(cfg, s, tx, staker, kind, stack).value.0.storage, token, tx.target, kind.stakingAsset)
         == Slack(s.storage, token, tx.target, kind.stakingAsset)
  {
    hide StakingUnstake, Supplied, KeptBy, AccrueRewards, TransferAsset, ResolveLedger, Withdraw, Penalty;
    var c, asset := tx.target, kind.stakingAsset;
    var s1, s2, s3, ledger, amount, split := UnstakeParts(cfg, s, tx, staker, kind, stack);
    AccrualNeutral(cfg, s, c, staker, kind, s1, token);
    KeptByResolves(cfg, s1, asset, token);
    PenaltySplits(amount, kind.penaltyBps);
    WithdrawSlack(s1, StakingFrame(c, staker, asset), c, staker, asset, amount, split.1, token, s2);
    WithdrawKept(cfg, s1, StakingFrame(c, staker, asset), c, staker, asset, amount, split.1, s2);
    if split.0 != 0 { Moved(cfg, s2, tx, token, c, staker, asset, split.0, stack, s3); }
  }

  lemma SettledRequest(s: Store, frame: Frame, c: Id, staker: Id, asset: Id, released: nat, ready: nat,
                       txHash: string, token: Id)
    requires SettleRequest(s, frame, c, staker, asset, released, ready, txHash).Ok?
    ensures Slack(SettleRequest(s, frame, c, staker, asset, released, ready, txHash).value.0.storage, token, c, asset)
         == Slack(s.storage, token, c, asset) - released
  {
    hide StakesBalanced, PendingBalanced, InScope;
  }

  /** A request turns stake into a pending release and a penalty. */
  lemma RequestKeepsSlack(cfg: Config, s: Store, tx: Transaction, staker: Id, kind: Kind, token: Id)
    requires kind.Staking? && Supplied(cfg, s.storage)
    requires StakingRequest(cfg, s, tx, staker, kind).Ok?
    ensures Slack(StakingRequest(cfg, s, tx, staker, kind).value.0.storage, token, tx.target, kind.stakingAsset)
         == Slack(s.storage, token, tx.target, kind.stakingAsset)
  {
    hide StakingRequest, Supplied, KeptBy, AccrueRewards, Withdraw, SettleRequest, Penalty;
    var c, asset := tx.target, kind.stakingAsset;
    var s1, s2, amount, split := RequestParts(cfg, s, tx, staker, kind);
    AccrualNeutral(cfg, s, c, staker, kind, s1, token);
    PenaltySplits(amount, kind.penaltyBps);
    WithdrawSlack(s1, StakingFrame(c, staker, asset), c, staker, asset, amount, split.1, token, s2);
    SettledRequest(s2, StakingFrame(c, staker, asset), c, staker, asset, split.0, cfg.height + kind.unbondingDelay,
                   tx.txHash, token);
  }

  lemma CompleteParts(cfg: Config, s: Store, tx: Transaction, staker: Id, kind: Kind, stack: seq<Id>)
    returns (s2: Store, s3: Store, ledger: LedgerRef, amount: nat)
    requires kind.Staking? && StakingComplete(cfg, s, tx, staker, kind, stack).Ok?
    ensures var c, asset := tx.target, kind.stakingAsset;
            var pendingKey, totalKey := PendingUnbond(c, staker, asset), TotalPendingUnbond(c, asset);
            && 0 < amount <= Get(s.storage, pendingKey) && amount <= Get(s.storage, totalKey)
            && s2 == Put(Put(s, pendingKey, Get(s.storage, pendingKey) - amount), totalKey,
                         Get(s.storage, totalKey) - amount)
            && ResolveLedger(cfg, s2, asset) == Ok(ledger)
            && TransferAsset(cfg, s2, tx, ledger, c, staker, asset, amount, stack) == Ok(s3)
            && cfg.height >= Get(s.storage, UnbondReadyHeight(c, staker, asset))
            && StakingComplete(cfg, s, tx, staker, kind, stack).value.0 == Emit(s3, c, tx.txHash, Notice("completed"))
  {
    hide TransferAsset, ResolveLedger, PendingBalanced;
    var c, asset := tx.target, kind.stakingAsset;
    var pendingKey, totalKey := PendingUnbond(c, staker, asset), TotalPendingUnbond(c, asset);
    amount := tx.args[1].amount;
    s2 := Put(Put(s, pendingKey, Get(s.storage, pendingKey) - amount), totalKey, Get(s.storage, totalKey) - amount);
    ledger := ResolveLedger(cfg, s2, asset).value;
    s3 := TransferAsset(cfg, s2, tx, ledger, c, staker, asset, amount, stack).value;
  }

  /** Completing a request pays out what was pending. */
  lemma CompleteKeepsSlack(cfg: Config, s: Store, tx: Transaction, staker: Id, kind: Kind, stack: seq<Id>, token: Id)
    requires kind.Staking? && Supplied(cfg, s.storage) && KeptBy(cfg, s.storage, kind.stakingAsset, token)
    requires StakingComplete(cfg, s, tx, staker, kind, stack).Ok?
    ensures Slack(StakingComplete(cfg, s, tx, staker, kind, stack).value.0.storage, token, tx.target, kind.stakingAsset)
         == Slack(s.storage, token, tx.target, kind.stakingAsset)
  {
    hide StakingComplete, Supplied, KeptBy, TransferAsset, ResolveLedger;
    var c, asset := tx.target, kind.stakingAsset;
    var s2, s3, ledger, amount := CompleteParts(cfg, s, tx, staker, kind, stack);
    var pendingKey, totalKey := PendingUnbond(c, staker, asset), TotalPendingUnbond(c, asset);
    var s1 := Put(s, pendingKey, Get(s.storage, pendingKey) - amount);
    PutElsewhere(cfg, s, pendingKey, Get(s.storage, pendingKey) - amount);
    PutElsewhere(cfg, s1, totalKey, Get(s.storage, totalKey) - amount);
    KeptByPut(cfg, s, pendingKey, Get(s.storage, pendingKey) - amount, asset, token);
    KeptByPut(cfg, s1, totalKey, Get(s.storage, totalKey) - amount, asset, token);
    KeptByResolves(cfg, s2, asset, token);
    Moved(cfg, s2, tx, token, c, staker, asset, amount, stack, s3);
  }

  lemma MintedSlack(s: Store, t: Id, to: Id, a: Id, amount: nat, token: Id, c: Id, asset: Id)
    requires MintNative(s, t, to, a, amount).Ok?
    ensures Slack(MintNative(s, t, to, a, amount).value.storage, token, c, asset) >= Slack(s.storage, token, c, asset)
  {
    MintWrites(s, t, to, a, amount);
  }

  lemma ClaimParts(cfg: Config, s: Store, tx: Transaction, staker: Id, kind: Kind)
    returns (s1: Store, s3: Store, token: Id, claimed: nat)
    requires kind.Staking? && StakingClaim(cfg, s, tx, staker, kind).Ok?
    ensures var c, asset := tx.target, kind.stakingAsset;
            var s2 := Put(s1, StakingRewardBalance(c, staker, asset), 0);
            && AccrueRewards(cfg, s, StakingFrame(c, staker, asset), c, staker, asset, kind.rewardPerBlock) == Ok(s1)
            && (if claimed == 0 then s3 == s2
                else token in NativeLedgers(cfg, s2.storage, asset) && IsToken(cfg, token)
                     && MintNative(s2, token, staker, asset, claimed) == Ok(s3))
            && StakingClaim(cfg, s, tx, staker, kind).value.0
               == Emit(s3, c, tx.txHash, StakingRewardsClaimed(staker, asset, claimed))
  {
    hide AccrueRewards, MintNative, ResolveLedger, NativeLedgers;
    var c, asset := tx.target, kind.stakingAsset;
    s1 := AccrueRewards(cfg, s, StakingFrame(c, staker, asset), c, staker, asset, kind.rewardPerBlock).value;
    var rewardKey := StakingRewardBalance(c, staker, asset);
    claimed, token := Get(s1.storage, rewardKey), c;
    s3 := Put(s1, rewardKey, 0);
    if claimed != 0 {
      ResolvedIsToken(cfg, s3, asset);
      token := ResolveLedger(cfg, s3, asset).value.token;
      s3 := MintNative(s3, token, staker, asset, claimed).value;
    }
  }

  /** Claimed rewards are minted, not paid out of what the contract holds. */
  lemma ClaimKeepsSlack(cfg: Config, s: Store, tx: Transaction, staker: Id, kind: Kind, token: Id)
    requires kind.Staking? && Supplied(cfg, s.storage) && StakingClaim(cfg, s, tx, staker, kind).Ok?
    ensures Slack(StakingClaim(cfg, s, tx, staker, kind).value.0.storage, token, tx.target, kind.stakingAsset)
         >= Slack(s.storage, token, tx.target, kind.stakingAsset)
  {
    hide StakingClaim, AccrueRewards, MintNative, NativeLedgers, Supplied, KeptBy;
    var s1, s3, t, claimed := ClaimParts(cfg, s, tx, staker, kind);
    var c, asset := tx.target, kind.stakingAsset;
    AccrualNeutral(cfg, s, c, staker, kind, s1, token);
    if claimed != 0 {
      MintedSlack(Put(s1, StakingRewardBalance(c, staker, asset), 0), t, staker, asset, claimed, token, c, asset);
    }
  }
}
