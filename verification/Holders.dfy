/** A contract's own methods leave its account as well backed as before. */
module Holders {
  import opened Common
  import opened Ledger
  import opened Executor
  import opened Steps
  import opened Linearize
  import opened Supply
  import opened Pools
  import opened Custody
  import opened Lending
  import opened Watch

  /** The holder of a watched account is running. */
  ghost predicate Holding(cfg: Config, s: Store, b: Book, tx: Transaction, kind: Kind, stack: seq<Id>) {
    Fit(cfg, Account(b), s) && Running(cfg, tx.target, kind, stack) && b.holder == tx.target
  }

  /** An asset the holder deals in, if it resolves in a later state, is kept by the token that issued it. */
  lemma DealtIsNative(cfg: Config, s: Store, s1: Store, b: Book, a: Id) returns (token: Id)
    requires Fit(cfg, Account(b), s) && Fit(cfg, Account(b), s1) && a in Dealt(cfg.contracts[b.holder])
             && ResolveLedger(cfg, s1, a).Ok?
    ensures KeptBy(cfg, s.storage, a, token) && (a == b.asset ==> token == b.token)
  {
    hide Supplied, ResolveLedger, NativeLedgers;
    assert Issued(s1.storage, a) && Issued(s.storage, a);
    var k :| k in s1.storage && k.TotalSupply? && k.asset == a;
    assert k == TotalSupply(k.contract, a);
    IssuedResolves(cfg, s1, a, k.contract);
    var j :| j in s.storage && j.TotalSupply? && j.asset == a;
    assert j == TotalSupply(j.contract, a);
    token := if a == b.asset then b.token else j.contract;
    IssuedResolves(cfg, s, a, token);
  }

  // --------------------------------------------------------------------- staking

  lemma AccruedFit(cfg: Config, s: Store, b: Book, tx: Transaction, staker: Id, kind: Kind, s1: Store, stack: seq<Id>)
    requires Holding(cfg, s, b, tx, kind, stack) && kind.Staking?
    requires AccrueRewards(cfg, s, StakingFrame(tx.target, staker, kind.stakingAsset), tx.target, staker,
                           kind.stakingAsset, kind.rewardPerBlock)
          == Ok(s1)
    ensures Fit(cfg, Account(b), s1)
  {
    hide AccrueRewards, Fit;
    var log := AccrueSteps(cfg, s, tx.target, staker, kind, Outer(stack));
    LinearFit(cfg, Account(b), s, log, s1, Outer(stack));
  }

  lemma StakeBacked(cfg: Config, s: Store, b: Book, tx: Transaction, staker: Id, kind: Kind, stack: seq<Id>)
    requires Holding(cfg, s, b, tx, kind, stack) && kind.Staking? && StakingStake(cfg, s, tx, staker, kind, stack).Ok?
    ensures Backing(kind, s.storage, b)
              == Backing(kind, StakingStake(cfg, s, tx, staker, kind, stack).value.0.storage, b)
  {
    hide StakingStake, Supplied, KeptBy, AccrueRewards, TransferAsset, ResolveLedger, SettleStake;
    var s1, s2, ledger := StakeParts(cfg, s, tx, staker, kind, stack);
    AccruedFit(cfg, s, b, tx, staker, kind, s1, stack);
    var token := DealtIsNative(cfg, s, s1, b, kind.stakingAsset);
    StakeKeepsSlack(cfg, s, tx, staker, kind, stack, token);
  }

  lemma UnstakeBacked(cfg: Config, s: Store, b: Book, tx: Transaction, staker: Id, kind: Kind, stack: seq<Id>)
    requires Holding(cfg, s, b, tx, kind, stack) && kind.Staking? && StakingUnstake(cfg, s, tx, staker, kind, stack).Ok?
    ensures Backing(kind, s.storage, b)
              == Backing(kind, StakingUnstake(cfg, s, tx, staker, kind, stack).value.0.storage, b)
  {
    hide StakingUnstake, Supplied, KeptBy, AccrueRewards, TransferAsset, ResolveLedger, Withdraw, Penalty;
    var s1, s2, s3, ledger, amount, split := UnstakeParts(cfg, s, tx, staker, kind, stack);
    AccruedFit(cfg, s, b, tx, staker, kind, s1, stack);
    var token := DealtIsNative(cfg, s, s1, b, kind.stakingAsset);
    UnstakeKeepsSlack(cfg, s, tx, staker, kind, stack, token);
  }

  /** The state in which a completed request pays out. */
  lemma ReleasedFit(cfg: Config, s: Store, b: Book, tx: Transaction, staker: Id, kind: Kind, amount: nat, s2: Store,
                    stack: seq<Id>)
    requires Holding(cfg, s, b, tx, kind, stack) && kind.Staking?
    requires var c, asset := tx.target, kind.stakingAsset;
             var pendingKey, totalKey := PendingUnbond(c, staker, asset), TotalPendingUnbond(c, asset);
             && amount <= Get(s.storage, pendingKey) && amount <= Get(s.storage, totalKey)
             && cfg.height >= Get(s.storage, UnbondReadyHeight(c, staker, asset))
             && s2 == Put(Put(s, pendingKey, Get(s.storage, pendingKey) - amount), totalKey,
                          Get(s.storage, totalKey) - amount)
    ensures Fit(cfg, Account(b), s2)
  {
    hide Fit, Linear;
    var log := ReleaseSteps(cfg, s, tx.target, staker, kind, amount, s2, Outer(stack));
    LinearFit(cfg, Account(b), s, log, s2, Outer(stack));
  }

  lemma CompleteBacked(cfg: Config, s: Store, b: Book, tx: Transaction, staker: Id, kind: Kind, stack: seq<Id>)
    requires Holding(cfg, s, b, tx, kind, stack) && kind.Staking?
             && StakingComplete(cfg, s, tx, staker, kind, stack).Ok?
    ensures Backing(kind, s.storage, b)
              == Backing(kind, StakingComplete(cfg, s, tx, staker, kind, stack).value.0.storage, b)
  {
    hide StakingComplete, Supplied, KeptBy, TransferAsset, ResolveLedger;
    var s2, s3, ledger, amount := CompleteParts(cfg, s, tx, staker, kind, stack);
    ReleasedFit(cfg, s, b, tx, staker, kind, amount, s2, stack);
    var token := DealtIsNative(cfg, s, s2, b, kind.stakingAsset);
    CompleteKeepsSlack(cfg, s, tx, staker, kind, stack, token);
  }

  lemma StakingBacked(cfg: Config, s: Store, b: Book, tx: Transaction, sender: Id, kind: Kind, stack: seq<Id>)
    requires Holding(cfg, s, b, tx, kind, stack) && kind.Staking? && Dispatch(cfg, s, tx, sender, kind, stack).Ok?
    ensures Backing(kind, s.storage, b) <= Backing(kind, Dispatch(cfg, s, tx, sender, kind, stack).value.0.storage, b)
  {
    hide StakingStake, StakingUnstake, StakingRequest, StakingComplete, StakingClaim, Supplied;
    if tx.selector.Stake? { StakeBacked(cfg, s, b, tx, sender, kind, stack); }
    else if tx.selector.Unstake? { UnstakeBacked(cfg, s, b, tx, sender, kind, stack); }
    else if tx.selector.RequestUnstake? { RequestKeepsSlack(cfg, s, tx, sender, kind, b.token); }
    else if tx.selector.CompleteUnstake? { CompleteBacked(cfg, s, b, tx, sender, kind, stack); }
    else { ClaimKeepsSlack(cfg, s, tx, sender, kind, b.token); }
  }

  // ----------------------------------------------------------------------- pools

  lemma SwapBacked(cfg: Config, s: Store, b: Book, tx: Transaction, sender: Id, kind: Kind, stack: seq<Id>)
    requires Holding(cfg, s, b, tx, kind, stack) && kind.AmmPool? && PoolSwap(cfg, s, tx, sender, kind, stack).Ok?
    ensures Backing(kind, s.storage, b) == Backing(kind, PoolSwap(cfg, s, tx, sender, kind, stack).value.0.storage, b)
  {
    hide PoolSwap, Supplied, KeptBy, TransferAsset, ResolveLedger, SettleSwap, Quote, Issued;
    var x, y, out, fee, s1, s2 := SwapParts(cfg, s, tx, sender, kind, stack);
    var input, output := tx.args[0].id, OutputOf(kind, tx.args[0].id);
    var tokenIn := DealtIsNative(cfg, s, s, b, input);
    var tokenOut := DealtIsNative(cfg, s, s, b, output);
    KeptByResolves(cfg, s, input, tokenIn);
    KeptByResolves(cfg, s, output, tokenOut);
    SwapCustody(cfg, s, tx, sender, kind, stack, tokenIn, tokenOut);
  }

  lemma AddBacked(cfg: Config, s: Store, b: Book, tx: Transaction, sender: Id, kind: Kind, stack: seq<Id>)
    requires Holding(cfg, s, b, tx, kind, stack) && kind.AmmPool?
             && PoolAddLiquidity(cfg, s, tx, sender, kind, stack).Ok?
    ensures Backing(kind, s.storage, b)
              == Backing(kind, PoolAddLiquidity(cfg, s, tx, sender, kind, stack).value.0.storage, b)
  {
    hide PoolAddLiquidity, Supplied, KeptBy, TransferAsset, ResolveLedger, SettleLp, Issued;
    var x, y, s1, s2 := AddParts(cfg, s, tx, sender, kind, stack);
    var tokenA := DealtIsNative(cfg, s, s, b, kind.assetA);
    var tokenB := DealtIsNative(cfg, s, s, b, kind.assetB);
    KeptByResolves(cfg, s, kind.assetA, tokenA);
    KeptByResolves(cfg, s, kind.assetB, tokenB);
    AddCustody(cfg, s, tx, sender, kind, stack, tokenA, tokenB);
  }

  // --------------------------------------------------------------------- lending

  lemma DepositBacked(cfg: Config, s: Store, b: Book, tx: Transaction, kind: Kind, stack: seq<Id>)
    requires Holding(cfg, s, b, tx, kind, stack) && kind.LendingVault? && VaultDeposit(cfg, s, tx, kind, stack).Ok?
    ensures Backing(kind, s.storage, b) == Backing(kind, VaultDeposit(cfg, s, tx, kind, stack).value.0.storage, b)
  {
    hide VaultDeposit, Supplied, KeptBy, TransferAsset, ResolveLedger, Total, Issued;
    var s1, ledger, amount := DepositParts(cfg, s, tx, kind, stack);
    var token := DealtIsNative(cfg, s, s, b, kind.collateralAsset);
    DepositCustody(cfg, s, tx, kind, stack, token);
  }

  /** The state in which a loan is paid out. */
  lemma DebtFit(cfg: Config, s: Store, b: Book, tx: Transaction, borrower: Id, kind: Kind, frame: Frame,
                accrued: (Store, nat), stack: seq<Id>)
    requires Holding(cfg, s, b, tx, kind, stack) && kind.LendingVault?
             && AccrueDebt(cfg, s, frame, tx.target, borrower, kind) == Ok(accrued)
    ensures Fit(cfg, Account(b), accrued.0)
  {
    hide AccrueDebt, Fit;
    var log := AccrueDebtSteps(cfg, s, frame, tx.target, borrower, kind, Outer(stack));
    LinearFit(cfg, Account(b), s, log, accrued.0, Outer(stack));
  }

  lemma BorrowBacked(cfg: Config, s: Store, b: Book, tx: Transaction, sender: Id, kind: Kind, stack: seq<Id>)
    requires Holding(cfg, s, b, tx, kind, stack) && kind.LendingVault?
             && VaultBorrow(cfg, s, tx, sender, kind, stack).Ok?
    ensures Backing(kind, s.storage, b)
              == Backing(kind, VaultBorrow(cfg, s, tx, sender, kind, stack).value.0.storage, b)
  {
    hide VaultBorrow, AccrueDebt, Supplied, KeptBy, TransferAsset, ResolveLedger, Total, Issued;
    var accrued, ledger, s2 := BorrowParts(cfg, s, tx, sender, kind, stack);
    var vault, asset := tx.target, kind.debtAsset;
    var frame := Frame(vault, {Debt(vault, sender, asset), DebtLastAccrualHeight(vault, sender, asset)});
    DebtFit(cfg, s, b, tx, sender, kind, frame, accrued, stack);
    AccrueDebtWrites(cfg, s, vault, sender, kind, frame, accrued.0, accrued.1);
    var token := DealtIsNative(cfg, accrued.0, accrued.0, b, asset);
    KeptByResolves(cfg, accrued.0, asset, token);
    LoanMoves(cfg, accrued.0, tx, token, vault, sender, asset, tx.args[1].amount, stack, s2);
    RecordedSame(kind, s.storage, VaultBorrow(cfg, s, tx, sender, kind, stack).value.0.storage, b);
  }

  /** A native transfer writes balances of its own asset only. */
  lemma LoanMoves(cfg: Config, s: Store, tx: Transaction, token: Id, from: Id, to: Id, asset: Id, amount: nat,
                  stack: seq<Id>, s': Store)
    requires TransferAsset(cfg, s, tx, Native(token), from, to, asset, amount, stack) == Ok(s')
    ensures forall k: StateKey | !(k.Balance? && k.asset == asset) :: Get(s'.storage, k) == Get(s.storage, k)
  {
    TransferWrites(s, token, from, to, asset, amount);
  }

  lemma LiquidateBacked(cfg: Config, s: Store, b: Book, tx: Transaction, sender: Id, kind: Kind, stack: seq<Id>)
    requires Holding(cfg, s, b, tx, kind, stack) && kind.LendingVault?
             && VaultLiquidate(cfg, s, tx, sender, kind, stack).Ok?
    ensures Backing(kind, s.storage, b)
              == Backing(kind, VaultLiquidate(cfg, s, tx, sender, kind, stack).value.0.storage, b)
  {
    hide VaultLiquidate, Owes, FreshPrice, PlanLiquidation, RecordBadDebt, ResolveLedger, TransferAsset,
      SettleLiquidation, Supplied, KeptBy, Total,
         Issued;
    var borrower, price, repay, s0, debt, plan, s1, x, y, s2, s3 := LiquidateParts(cfg, s, tx, sender, kind, stack);
    WrittenOffFit(cfg, s, b, tx, borrower, kind, s0, debt, plan, s1, stack);
    var debtToken := DealtIsNative(cfg, s, s1, b, kind.debtAsset);
    var token := DealtIsNative(cfg, s, s1, b, kind.collateralAsset);
    LiquidateCustody(cfg, s, tx, sender, kind, stack, debtToken, token);
  }

  /** The state in which a liquidation moves assets. */
  lemma WrittenOffFit(cfg: Config, s: Store, b: Book, tx: Transaction, borrower: Id, kind: Kind, s0: Store, debt: nat,
                      plan: Liquidation,
                      s1: Store, stack: seq<Id>)
    requires Holding(cfg, s, b, tx, kind, stack) && kind.LendingVault?
    requires Owes(cfg, s, tx.target, borrower, kind, LiquidationFrame(tx.target, borrower, kind), s0, debt)
    requires RecordBadDebt(s0, LiquidationFrame(tx.target, borrower, kind), BadDebt(tx.target, kind.debtAsset),
                           plan.badDebt) == Ok(s1)
    ensures Fit(cfg, Account(b), s1)
  {
    hide AccrueDebt, Fit, RecordBadDebt, Linear;
    var frame, outer := LiquidationFrame(tx.target, borrower, kind), Outer(stack);
    var log := AccrueDebtSteps(cfg, s, frame, tx.target, borrower, kind, outer);
    log := BadDebtSteps(cfg, s, log, s0, frame, BadDebt(tx.target, kind.debtAsset), plan.badDebt, outer);
    LinearFit(cfg, Account(b), s, log, s1, outer);
  }

  // ----------------------------------------------------------------- all of them

  /** Whatever method of the holder commits, its account is no worse backed than before. */
  lemma HolderBacked(cfg: Config, s: Store, b: Book, tx: Transaction, sender: Id, kind: Kind, stack: seq<Id>)
    requires Holding(cfg, s, b, tx, kind, stack) && Dispatch(cfg, s, tx, sender, kind, stack).Ok?
    ensures Backing(kind, s.storage, b) <= Backing(kind, Dispatch(cfg, s, tx, sender, kind, stack).value.0.storage, b)
  {
    hide PoolSwap, PoolAddLiquidity, VaultDeposit, VaultBorrow, VaultLiquidate, Backing, Supplied;
    if kind.AmmPool? {
      if tx.selector.AddLiquidity? { AddBacked(cfg, s, b, tx, sender, kind, stack); } else {
        SwapBacked(cfg, s, b, tx, sender, kind, stack);
      }
    } else if kind.LendingVault? {
      if tx.selector.DepositCollateral? { DepositBacked(cfg, s, b, tx, kind, stack); }
      else if tx.selector.Borrow? { BorrowBacked(cfg, s, b, tx, sender, kind, stack); }
      else { LiquidateBacked(cfg, s, b, tx, sender, kind, stack); }
    } else {
      hide Dispatch;
      StakingBacked(cfg, s, b, tx, sender, kind, stack);
    }
  }
}
