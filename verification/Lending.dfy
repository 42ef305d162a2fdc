/** Lending vaults: how a liquidation splits debt and collateral, and that recorded collateral is held. */
module Lending {
  import opened Common
  import opened Ledger
  import opened Executor
  import opened Steps
  import opened Supply
  import opened Linearize
  import opened Pools
  import opened Custody

  // ---------------------------------------------------------------- liquidation

  /** Rounding up overshoots by less than one unit of the divisor. */
  lemma DivCeilFacts(n: nat, d: nat)
    requires DivCeil(n, d).Ok?
    ensures d > 0 && n <= DivCeil(n, d).value * d < n + d
  {
    FloorFacts(n + (d - 1), d);
  }

  /**
    Only a debt beyond the threshold can be liquidated, and every unit is accounted for: the debt is repaid,
    remains or becomes bad debt, the collateral is seized or remains, what is seized is worth less than the
    repayment plus one unit of collateral, and the borrower ends within the loan-to-value limit or with nothing
    owed and nothing left.
  */
  lemma LiquidationAccounts(debt: nat, collateral: nat, price: nat, repay: nat, ltvBps: nat, thresholdBps: nat)
    requires PlanLiquidation(debt, collateral, price, repay, ltvBps, thresholdBps).Ok?
    ensures DebtLimit(collateral, price, thresholdBps).Ok? && debt > DebtLimit(collateral, price, thresholdBps).value
    ensures var p := PlanLiquidation(debt, collateral, price, repay, ltvBps, thresholdBps).value;
            && debt == p.repaid + p.debtAfter + p.badDebt
            && collateral == p.seized + p.collateralAfter
            && p.repaid <= repay && (repay > 0 ==> p.repaid > 0)
            && p.seized * price < p.repaid + price
            && (|| (p.debtAfter == 0 && p.collateralAfter == 0 && p.badDebt > 0)
                || (p.badDebt == 0 && DebtLimit(p.collateralAfter, price, ltvBps).Ok?
                    && p.debtAfter <= DebtLimit(p.collateralAfter, price, ltvBps).value))
  {
    hide DebtLimit, DivCeil;
    var p := PlanLiquidation(debt, collateral, price, repay, ltvBps, thresholdBps).value;
    DivCeilFacts(p.repaid, price);
    MulLess(p.seized, DivCeil(p.repaid, price).value, price);
  }

  /** The store after interest, and the debt including it. */
  ghost predicate Owes(cfg: Config, s: Store, vault: Id, borrower: Id, kind: Kind, frame: Frame, s1: Store, debt: nat)
    requires kind.LendingVault?
  {
    AccrueDebt(cfg, s, frame, vault, borrower, kind) == Ok((s1, debt))
  }

  lemma AccrueDebtWrites(cfg: Config, s: Store, vault: Id, borrower: Id, kind: Kind, frame: Frame, s1: Store, debt: nat)
    requires kind.LendingVault? && Owes(cfg, s, vault, borrower, kind, frame, s1, debt)
    ensures s1.(storage := s.storage) == s
    ensures debt >= Get(s.storage, Debt(vault, borrower, kind.debtAsset))
            && Get(s1.storage, Debt(vault, borrower, kind.debtAsset)) == debt
    ensures forall k: StateKey | !k.Debt? && !k.DebtLastAccrualHeight? :: Get(s1.storage, k) == Get(s.storage, k)
    ensures Supplied(cfg, s.storage) ==> Supplied(cfg, s1.storage)
    ensures forall asset, token :: KeptBy(cfg, s.storage, asset, token) ==> KeptBy(cfg, s1.storage, asset, token)
  {
    hide Supplied, KeptBy, InScope;
    var debtKey, heightKey := Debt(vault, borrower, kind.debtAsset),
      DebtLastAccrualHeight(vault, borrower, kind.debtAsset);
    var mid := if debt == Get(s.storage, debtKey) then s else Put(s, debtKey, debt);
    assert s1 == Put(mid, heightKey, cfg.height);
    if Supplied(cfg, s.storage) {
      if mid != s { PutElsewhere(cfg, s, debtKey, debt); }
      PutElsewhere(cfg, mid, heightKey, cfg.height);
    }
    forall asset, token | KeptBy(cfg, s.storage, asset, token) ensures KeptBy(cfg, s1.storage, asset, token) {
      if mid != s { KeptByPut(cfg, s, debtKey, debt, asset, token); }
      KeptByPut(cfg, mid, heightKey, cfg.height, asset, token);
    }
  }

  function LiquidationFrame(vault: Id, borrower: Id, kind: Kind): Frame
    requires kind.LendingVault?
  {
    Frame(vault, {Debt(vault, borrower, kind.debtAsset), DebtLastAccrualHeight(vault, borrower, kind.debtAsset),
                  Collateral(vault, borrower, kind.collateralAsset), BadDebt(vault, kind.debtAsset)})
  }

  lemma LiquidateParts(cfg: Config, s: Store, tx: Transaction, sender: Id, kind: Kind, stack: seq<Id>)
    returns (borrower: Id, price: nat, repay: nat, s0: Store, debt: nat, plan: Liquidation, s1: Store, x: LedgerRef,
             y: LedgerRef, s2: Store, s3: Store)
    requires kind.LendingVault? && VaultLiquidate(cfg, s, tx, sender, kind, stack).Ok?
    ensures var vault, frame := tx.target, LiquidationFrame(tx.target, borrower, kind);
            && |tx.args| == 3 && tx.args[0] == PrincipalArg(borrower) && repay > 0
            && FreshPrice(cfg, s.storage, kind) == Ok(price)
            && Owes(cfg, s, vault, borrower, kind, frame, s0, debt)
            && PlanLiquidation(debt, Get(s0.storage, Collateral(vault, borrower, kind.collateralAsset)), price, repay,
                               kind.ltvBps, kind.thresholdBps)
               == Ok(plan)
            && RecordBadDebt(s0, frame, BadDebt(vault, kind.debtAsset), plan.badDebt) == Ok(s1)
            && ResolveLedger(cfg, s1, kind.debtAsset) == Ok(x) && ResolveLedger(cfg, s1, kind.collateralAsset) == Ok(y)
            && TransferAsset(cfg, s1, tx, x, sender, vault, kind.debtAsset, plan.repaid, stack) == Ok(s2)
            && (if plan.seized == 0 then Ok(s2)
                else TransferAsset(cfg, s2, tx, y, vault, sender, kind.collateralAsset, plan.seized, stack)) == Ok(s3)
            && VaultLiquidate(cfg, s, tx, sender, kind, stack)
               == SettleLiquidation(s3, frame, vault, borrower, kind, plan, tx.txHash)
  {
    hide FreshPrice, AccrueDebt, PlanLiquidation, RecordBadDebt, ResolveLedger, TransferAsset, SettleLiquidation;
    var vault := tx.target;
    borrower, repay := tx.args[0].id, tx.args[2].amount;
    var frame := LiquidationFrame(vault, borrower, kind);
    price := FreshPrice(cfg, s.storage, kind).value;
    var accrued := AccrueDebt(cfg, s, frame, vault, borrower, kind).value;
    s0, debt := accrued.0, accrued.1;
    plan := PlanLiquidation(debt, Get(s0.storage, Collateral(vault, borrower, kind.collateralAsset)), price, repay,
                            kind.ltvBps,
                            kind.thresholdBps).value;
    s1 := RecordBadDebt(s0, frame, BadDebt(vault, kind.debtAsset), plan.badDebt).value;
    x, y := ResolveLedger(cfg, s1, kind.debtAsset).value, ResolveLedger(cfg, s1, kind.collateralAsset).value;
    s2 := TransferAsset(cfg, s1, tx, x, sender, vault, kind.debtAsset, plan.repaid, stack).value;
    s3 := if plan.seized == 0 then s2
          else TransferAsset(cfg, s2, tx, y, vault, sender, kind.collateralAsset, plan.seized, stack).value;
  }

  lemma SettledLiquidation(s: Store, frame: Frame, vault: Id, borrower: Id, kind: Kind, plan: Liquidation,
                           txHash: string)
    requires kind.LendingVault? && SettleLiquidation(s, frame, vault, borrower, kind, plan, txHash).Ok?
    ensures var r := SettleLiquidation(s, frame, vault, borrower, kind, plan, txHash).value;
            var m' := r.0.storage;
            && r.1 == UIntRet(plan.repaid)
            && Get(m', Debt(vault, borrower, kind.debtAsset)) == plan.debtAfter
            && Get(m', Collateral(vault, borrower, kind.collateralAsset)) == plan.collateralAfter
            && DebtsCovered(m', vault, kind)
            && forall k: StateKey | k != Debt(vault, borrower, kind.debtAsset)
                 && k != Collateral(vault, borrower, kind.collateralAsset) ::
                 Get(m', k) == Get(s.storage, k)
  {
    hide DebtsCovered, InScope;
  }

  lemma BadDebtRecorded(cfg: Config, s: Store, frame: Frame, key: StateKey, badDebt: nat, s': Store)
    requires key.BadDebt? && RecordBadDebt(s, frame, key, badDebt) == Ok(s')
    ensures s'.(storage := s.storage) == s
    ensures Get(s'.storage, key) == Get(s.storage, key) + badDebt
    ensures forall k: StateKey | k != key :: Get(s'.storage, k) == Get(s.storage, k)
    ensures Supplied(cfg, s.storage) ==> Supplied(cfg, s'.storage)
    ensures forall asset, token :: KeptBy(cfg, s.storage, asset, token) ==> KeptBy(cfg, s'.storage, asset, token)
  {
    hide Supplied, KeptBy, InScope;
    if badDebt != 0 {
      var next := Get(s.storage, key) + badDebt;
      assert s' == Put(s, key, next);
      if Supplied(cfg, s.storage) { PutElsewhere(cfg, s, key, next); }
      forall asset, token | KeptBy(cfg, s.storage, asset, token) ensures KeptBy(cfg, s'.storage, asset, token) {
        KeptByPut(cfg, s, key, next, asset, token);
      }
    }
  }

  /**
    A committed liquidation: the debt with interest is what was repaid, what remains and what was
    written off, and afterwards every open debt of the vault is within its limit.
  */
  lemma LiquidationSettles(cfg: Config, s: Store, tx: Transaction, sender: Id, kind: Kind, stack: seq<Id>)
    returns (borrower: Id, s0: Store, debt: nat, repaid: nat, price: nat)
    requires WellFormed(cfg) && Indexed(s) && Running(cfg, tx.target, kind, stack)
    requires kind.LendingVault? && VaultLiquidate(cfg, s, tx, sender, kind, stack).Ok?
    ensures var vault := tx.target;
            var debtKey, collateralKey, badKey := Debt(vault, borrower, kind.debtAsset),
              Collateral(vault, borrower, kind.collateralAsset),
                                                  BadDebt(vault, kind.debtAsset);
            var r := VaultLiquidate(cfg, s, tx, sender, kind, stack).value;
            var m, m' := s.storage, r.0.storage;
            && Owes(cfg, s, vault, borrower, kind, LiquidationFrame(vault, borrower, kind), s0, debt)
            && FreshPrice(cfg, m, kind) == Ok(price)
            && r.1 == UIntRet(repaid)
            && debt == repaid + Get(m', debtKey) + (Get(m', badKey) - Get(m, badKey))
            && (Get(m, collateralKey) - Get(m', collateralKey)) * price < repaid + price
            && (Get(m', badKey) > Get(m, badKey) ==> Get(m', debtKey) == 0 && Get(m', collateralKey) == 0)
            && DebtsCovered(m', vault, kind)
  {
    hide VaultLiquidate, Owes, FreshPrice, PlanLiquidation, RecordBadDebt, ResolveLedger, TransferAsset,
      SettleLiquidation, DebtsCovered, Linear, Supplied,
         KeptBy;
    var vault := tx.target;
    var plan, repay, x, y, s1, s2, s3;
    borrower, price, repay, s0, debt, plan, s1, x, y, s2, s3 := LiquidateParts(cfg, s, tx, sender, kind, stack);
    repaid := plan.repaid;
    var collateralKey := Collateral(vault, borrower, kind.collateralAsset);
    AccrueDebtWrites(cfg, s, vault, borrower, kind, LiquidationFrame(vault, borrower, kind), s0, debt);
    LiquidationAccounts(debt, Get(s0.storage, collateralKey), price, repay, kind.ltvBps, kind.thresholdBps);
    BadDebtRecorded(cfg, s0, LiquidationFrame(vault, borrower, kind), BadDebt(vault, kind.debtAsset), plan.badDebt, s1);
    TransfersKeepVault(cfg, s, s0, s1, tx, sender, kind, plan, stack, s2, s3);
    SettledLiquidation(s3, LiquidationFrame(vault, borrower, kind), vault, borrower, kind, plan, tx.txHash);
  }

  /** The transfers of a liquidation, nested calls included, leave the vault's own records alone. */
  lemma TransfersKeepVault(cfg: Config, s: Store, s0: Store, s1: Store, tx: Transaction, sender: Id, kind: Kind,
                           plan: Liquidation, stack: seq<Id>,
                           s2: Store, s3: Store)
    requires WellFormed(cfg) && Indexed(s1) && Running(cfg, tx.target, kind, stack) && kind.LendingVault?
    requires ResolveLedger(cfg, s1, kind.debtAsset).Ok? && ResolveLedger(cfg, s1, kind.collateralAsset).Ok?
    requires TransferAsset(cfg, s1, tx, ResolveLedger(cfg, s1, kind.debtAsset).value, sender, tx.target,
                           kind.debtAsset, plan.repaid, stack) == Ok(s2)
    requires (if plan.seized == 0 then Ok(s2)
              else TransferAsset(cfg, s2, tx, ResolveLedger(cfg, s1, kind.collateralAsset).value, tx.target, sender,
                                 kind.collateralAsset,
                                 plan.seized, stack)) == Ok(s3)
    ensures SameOwn(s1.storage, s3.storage, tx.target)
  {
    hide TransferAsset, ResolveLedger, NativeLedgers;
    var x, y := ResolveLedger(cfg, s1, kind.debtAsset).value, ResolveLedger(cfg, s1, kind.collateralAsset).value;
    ResolvedIsToken(cfg, s1, kind.debtAsset);
    ResolvedIsToken(cfg, s1, kind.collateralAsset);
    var log := TransferSteps(cfg, s1, tx, x, sender, tx.target, kind.debtAsset, plan.repaid, stack);
    LinearFrame(cfg, s1, log, s2, stack, tx.target);
    if plan.seized != 0 {
      LinearIndexed(cfg, s1, log, s2, stack);
      var log' := TransferSteps(cfg, s2, tx, y, tx.target, sender, kind.collateralAsset, plan.seized, stack);
      LinearFrame(cfg, s2, log', s3, stack, tx.target);
      SameOwnTwice(s1.storage, s2.storage, s3.storage, tx.target);
    }
  }

  // --------------------------------------------------------------------- custody

  /** What the vault holds of its collateral asset beyond what it records for its borrowers. */
  ghost function CollateralSurplus(m: Storage, token: Id, vault: Id, asset: Id): int {
    Surplus(m, token, vault, asset, Total(m, CollateralOf(vault, asset)))
  }

  lemma DepositParts(cfg: Config, s: Store, tx: Transaction, kind: Kind, stack: seq<Id>)
    returns (s1: Store, ledger: LedgerRef, amount: nat)
    requires kind.LendingVault? && VaultDeposit(cfg, s, tx, kind, stack).Ok?
    ensures var vault, key := tx.target, Collateral(tx.target, tx.sender, kind.collateralAsset);
            && amount > 0 && ResolveLedger(cfg, s, kind.collateralAsset) == Ok(ledger)
            && TransferAsset(cfg, s, tx, ledger, tx.sender, vault, kind.collateralAsset, amount, stack) == Ok(s1)
            && VaultDeposit(cfg, s, tx, kind, stack).value.0
               == Emit(Put(s1, key, Get(s.storage, key) + amount), vault, tx.txHash, Notice("deposit"))
  {
    hide ResolveLedger, TransferAsset;
    amount := tx.args[1].amount;
    ledger := ResolveLedger(cfg, s, kind.collateralAsset).value;
    s1 := TransferAsset(cfg, s, tx, ledger, tx.sender, tx.target, kind.collateralAsset, amount, stack).value;
  }

  /** A deposit of a native asset is recorded in full. */
  lemma DepositCustody(cfg: Config, s: Store, tx: Transaction, kind: Kind, stack: seq<Id>, token: Id)
    requires kind.LendingVault? && Supplied(cfg, s.storage) && KeptBy(cfg, s.storage, kind.collateralAsset, token)
    requires VaultDeposit(cfg, s, tx, kind, stack).Ok?
    ensures CollateralSurplus(VaultDeposit(cfg, s, tx, kind, stack).value.0.storage, token, tx.target,
                              kind.collateralAsset)
         == CollateralSurplus(s.storage, token, tx.target, kind.collateralAsset)
  {
    hide VaultDeposit, Supplied, KeptBy, TransferAsset, ResolveLedger, Total;
    var s1, ledger, amount := DepositParts(cfg, s, tx, kind, stack);
    KeptByResolves(cfg, s, kind.collateralAsset, token);
    Moved(cfg, s, tx, token, tx.sender, tx.target, kind.collateralAsset, amount, stack, s1);
    TotalExcept(s.storage, VaultDeposit(cfg, s, tx, kind, stack).value.0.storage,
                CollateralOf(tx.target, kind.collateralAsset),
                Collateral(tx.target, tx.sender, kind.collateralAsset));
  }

  /** A liquidation on native assets hands out exactly the collateral it writes off. */
  lemma LiquidateCustody(cfg: Config, s: Store, tx: Transaction, sender: Id, kind: Kind, stack: seq<Id>,
                         debtToken: Id, token: Id)
    requires kind.LendingVault? && kind.collateralAsset != kind.debtAsset && Supplied(cfg, s.storage)
    requires KeptBy(cfg, s.storage, kind.debtAsset, debtToken) && KeptBy(cfg, s.storage, kind.collateralAsset, token)
    requires VaultLiquidate(cfg, s, tx, sender, kind, stack).Ok?
    ensures CollateralSurplus(VaultLiquidate(cfg, s, tx, sender, kind, stack).value.0.storage, token, tx.target,
                              kind.collateralAsset)
         == CollateralSurplus(s.storage, token, tx.target, kind.collateralAsset)
  {
    hide VaultLiquidate, Owes, FreshPrice, PlanLiquidation, RecordBadDebt, ResolveLedger, TransferAsset,
      SettleLiquidation, DebtsCovered, Supplied, KeptBy,
         Total;
    var vault, asset := tx.target, kind.collateralAsset;
    var borrower, price, repay, s0, debt, plan, s1, x, y, s2, s3 := LiquidateParts(cfg, s, tx, sender, kind, stack);
    var collateralKey := Collateral(vault, borrower, asset);
    AccrueDebtWrites(cfg, s, vault, borrower, kind, LiquidationFrame(vault, borrower, kind), s0, debt);
    LiquidationAccounts(debt, Get(s0.storage, collateralKey), price, repay, kind.ltvBps, kind.thresholdBps);
    BadDebtRecorded(cfg, s0, LiquidationFrame(vault, borrower, kind), BadDebt(vault, kind.debtAsset), plan.badDebt, s1);
    KeptByResolves(cfg, s1, kind.debtAsset, debtToken);
    KeptByResolves(cfg, s1, asset, token);
    LiquidationMoves(cfg, s1, tx, debtToken, token, sender, kind, plan, stack, s2, s3);
    SettledLiquidation(s3, LiquidationFrame(vault, borrower, kind), vault, borrower, kind, plan, tx.txHash);
    TotalExcept(s.storage, VaultLiquidate(cfg, s, tx, sender, kind, stack).value.0.storage,
                CollateralOf(vault, asset), collateralKey);
  }

  lemma LiquidationMoves(cfg: Config, s1: Store, tx: Transaction, debtToken: Id, token: Id, sender: Id, kind: Kind,
                         plan: Liquidation, stack: seq<Id>,
                         s2: Store, s3: Store)
    requires kind.LendingVault? && kind.collateralAsset != kind.debtAsset && Supplied(cfg, s1.storage)
             && plan.repaid > 0 && IsToken(cfg, debtToken)
    requires TransferAsset(cfg, s1, tx, Native(debtToken), sender, tx.target, kind.debtAsset, plan.repaid, stack)
               == Ok(s2)
    requires (if plan.seized == 0 then Ok(s2)
              else TransferAsset(cfg, s2, tx, Native(token), tx.target, sender, kind.collateralAsset, plan.seized,
                                 stack)) == Ok(s3)
    ensures Get(s3.storage, Balance(token, tx.target, kind.collateralAsset))
         == Get(s1.storage, Balance(token, tx.target, kind.collateralAsset)) - plan.seized
    ensures forall k: StateKey | !k.Balance? :: Get(s3.storage, k) == Get(s1.storage, k)
  {
    hide Supplied, TransferAsset;
    Moved(cfg, s1, tx, debtToken, sender, tx.target, kind.debtAsset, plan.repaid, stack, s2);
    if plan.seized != 0 {
      TransferKeepsSupplied(cfg, s1, tx, debtToken, sender, tx.target, kind.debtAsset, plan.repaid, stack, s2);
      Moved(cfg, s2, tx, token, tx.target, sender, kind.collateralAsset, plan.seized, stack, s3);
    }
  }

  lemma TransferKeepsSupplied(cfg: Config, s: Store, tx: Transaction, token: Id, from: Id, to: Id, asset: Id,
                              amount: nat, stack: seq<Id>, s': Store)
    requires Supplied(cfg, s.storage) && IsToken(cfg, token)
             && TransferAsset(cfg, s, tx, Native(token), from, to, asset, amount, stack) == Ok(s')
    ensures Supplied(cfg, s'.storage)
  {
    hide Supplied;
    MoveSupplied(cfg, s, token, from, to, asset, amount);
  }
}
