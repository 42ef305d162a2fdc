/**
  Every committed tree of calls keeps what is watched: each contract writes its own keys, pays from its own
  or its caller's account, and calls others; the holder of a watched account is visited as a whole.
*/
module Trees {
  import opened Common
  import opened AspectIr
  import opened Effects
  import opened Evaluator
  import opened Soundness
  import opened StaticSafety
  import opened Ledger
  import opened Executor
  import opened Steps
  import opened Linearize
  import opened Growth
  import opened Supply
  import opened Closure
  import opened Custody
  import opened Lending
  import opened Watch
  import opened Holders

  /** A contract other than the holder is running, called by someone other than the holder. */
  ghost predicate Busy(cfg: Config, w: Watch, s: Store, tx: Transaction, sender: Id, kind: Kind, stack: seq<Id>) {
    && Fit(cfg, w, s) && Running(cfg, tx.target, kind, stack) && MayRun(w, tx.target)
    && MayPay(w, tx.target) && MayPay(w, sender) && MayPay(w, tx.sender)
  }

  ghost predicate LedgerFits(cfg: Config, w: Watch, ledger: LedgerRef) {
    if ledger.Native? then IsToken(cfg, ledger.token) else MayRun(w, ledger.contract)
  }

  lemma ResolvedFits(cfg: Config, w: Watch, s: Store, c: Id, asset: Id)
    requires Fit(cfg, w, s) && c in cfg.contracts && MayRun(w, c) && (w.Account? || asset in Dealt(cfg.contracts[c]))
    requires ResolveLedger(cfg, s, asset).Ok?
    ensures LedgerFits(cfg, w, ResolveLedger(cfg, s, asset).value)
  {
    ResolvedIsToken(cfg, s, asset);
    if w.Silence? { assert SilentKind(cfg, cfg.contracts[c], w.quiet); }
  }

  // ------------------------------------------------------------------- dispatcher

  /** The watched thing is kept by a call, whatever the call goes on to call. */
  lemma {:induction false} CallKept(cfg: Config, w: Watch, s: Store, tx: Transaction, sender: Id, stack: seq<Id>)
    requires Fit(cfg, w, s) && MayRun(w, tx.target) && MayPay(w, sender) && MayPay(w, tx.sender)
    requires ExecuteCall(cfg, s, tx, sender, stack).Ok?
    ensures Fit(cfg, w, ExecuteCall(cfg, s, tx, sender, stack).value.0)
            && Kept(cfg, w, s, ExecuteCall(cfg, s, tx, sender, stack).value.0)
    decreases Idle(cfg, stack), 0
  {
    hide Fit, Kept, Dispatch, Linear;
    var inner, s' := stack + [tx.target], ExecuteCall(cfg, s, tx, sender, stack).value.0;
    var kind := cfg.contracts[tx.target];
    FitBasics(cfg, w, s);
    var log := CallSteps(cfg, s, tx, sender, stack);
    LinearFit(cfg, w, s, log, s', stack);
    assert tx.target in Idle(cfg, stack) && tx.target !in Idle(cfg, inner);
    assert Idle(cfg, inner) <= Idle(cfg, stack);
    assert Outer(inner) == stack;
    if MayPay(w, tx.target) {
      DispatchKept(cfg, w, s, tx, sender, kind, inner);
    } else {
      HolderBacked(cfg, s, w.book, tx, sender, kind, inner);
      HolderKept(cfg, w, s, s');
    }
  }

  lemma FitBasics(cfg: Config, w: Watch, s: Store)
    requires Fit(cfg, w, s)
    ensures WellFormed(cfg) && Indexed(s)
  {
  }

  lemma HolderKept(cfg: Config, w: Watch, s: Store, s': Store)
    requires w.Account? && w.book.holder in cfg.contracts && s.registry.Keys <= s'.registry.Keys
    requires Backing(cfg.contracts[w.book.holder], s.storage, w.book)
               <= Backing(cfg.contracts[w.book.holder], s'.storage, w.book)
    ensures Kept(cfg, w, s, s')
  {
  }

  lemma {:induction false} DispatchKept(cfg: Config, w: Watch, s: Store, tx: Transaction, sender: Id, kind: Kind,
                                        stack: seq<Id>)
    requires Busy(cfg, w, s, tx, sender, kind, stack) && Dispatch(cfg, s, tx, sender, kind, stack).Ok?
    ensures Kept(cfg, w, s, Dispatch(cfg, s, tx, sender, kind, stack).value.0)
    decreases Idle(cfg, stack), 4
  {
    hide Busy, Kept, Fit;
    match kind
    case Token =>
      if tx.selector.Transfer? { TokenTransferKept(cfg, w, s, tx, sender, kind, stack); }
      else if tx.selector.Approve? { ApproveKept(cfg, w, s, tx, sender, kind, stack); }
      else if tx.selector.TransferFrom? { TokenTransferFromKept(cfg, w, s, tx, sender, kind, stack); }
      else { PermitKept(cfg, w, s, tx, sender, kind, stack); }
    case AmmPool(_, _, _) =>
      if tx.selector.AddLiquidity? { AddKept(cfg, w, s, tx, sender, kind, stack); }
      else { SwapKept(cfg, w, s, tx, sender, kind, stack); }
    case Oracle(_, _) => PriceKept(cfg, w, s, tx, sender, kind, stack);
    case Bridge(_) =>
      if tx.selector.QueueBridgeMessage? { QueueKept(cfg, w, s, tx, sender, kind, stack); }
      else { RedeemKept(cfg, w, s, tx, sender, kind, stack); }
    case LendingVault(_, _, _, _, _, _, _) =>
      if tx.selector.DepositCollateral? { DepositKept(cfg, w, s, tx, sender, kind, stack); }
      else if tx.selector.Borrow? { BorrowKept(cfg, w, s, tx, sender, kind, stack); }
      else { LiquidateKept(cfg, w, s, tx, sender, kind, stack); }
    case Staking(_, _, _, _) =>
      if tx.selector.Stake? { StakeKept(cfg, w, s, tx, sender, kind, stack); }
      else if tx.selector.Unstake? { UnstakeKept(cfg, w, s, tx, sender, kind, stack); }
      else if tx.selector.RequestUnstake? { RequestKept(cfg, w, s, tx, sender, kind, stack); }
      else if tx.selector.CompleteUnstake? { CompleteKept(cfg, w, s, tx, sender, kind, stack); }
      else { ClaimKept(cfg, w, s, tx, sender, kind, stack); }
    case Router(_) => RouterKept(cfg, w, s, tx, sender, kind, stack);
    case Aspect(_, _) => AspectKept(cfg, w, s, tx, sender, kind, stack);
  }

  lemma {:induction false} TransferKept(cfg: Config, w: Watch, s: Store, tx: Transaction, ledger: LedgerRef, from: Id,
                                        to: Id, asset: Id,
                                        amount: nat, stack: seq<Id>, s': Store)
    requires Fit(cfg, w, s) && LedgerFits(cfg, w, ledger) && MayPay(w, from)
    requires TransferAsset(cfg, s, tx, ledger, from, to, asset, amount, stack) == Ok(s')
    ensures Fit(cfg, w, s') && Kept(cfg, w, s, s')
    decreases Idle(cfg, stack), 1
  {
    hide Fit, Kept, TransferNative, ExecuteCall;
    match ledger
    case Native(token) =>
      MoveKept(cfg, w, s, token, from, to, asset, amount);
      FitBasics(cfg, w, s);
      var log := TransferSteps(cfg, s, tx, ledger, from, to, asset, amount, stack);
      LinearFit(cfg, w, s, log, s', stack);
    case AspectToken(contract) =>
      var child := tx.(txHash := tx.txHash + ":asset-transfer:" + contract + ":" + from + ":" + to,
                       sender := from, target := contract, selector := Other(ERC20_TRANSFER),
                       args := [PrincipalArg(to), AmountArg(amount)], signatureOk := true);
      CallKept(cfg, w, s, child, from, stack);
  }

  /** A contract's own writes, seen from outside. */
  lemma OwnWrites(cfg: Config, w: Watch, s0: Store, s: Store, s': Store, tx: Transaction, kind: Kind, stack: seq<Id>)
    requires Kept(cfg, w, s0, s) && Fit(cfg, w, s) && Running(cfg, tx.target, kind, stack) && !kind.Token?
             && MayPay(w, tx.target)
    requires OnlyOwn(s, s', tx.target)
    ensures Kept(cfg, w, s0, s')
  {
    hide Kept, Fit, OnlyOwn;
    OwnKept(cfg, w, s, s', tx.target);
    KeptTwice(cfg, w, s0, s, s');
  }

  // --------------------------------------------------------------- token and oracle

  lemma TokenTransferKept(cfg: Config, w: Watch, s: Store, tx: Transaction, sender: Id, kind: Kind, stack: seq<Id>)
    requires Busy(cfg, w, s, tx, sender, kind, stack) && kind.Token? && TokenTransfer(cfg, s, tx, sender).Ok?
    ensures Kept(cfg, w, s, TokenTransfer(cfg, s, tx, sender).value.0)
  {
    hide Kept, Fit, TransferNative;
    var s1 := TransferNative(s, tx.target, sender, tx.args[0].id, tx.args[1].id, tx.args[2].amount).value;
    MoveKept(cfg, w, s, tx.target, sender, tx.args[0].id, tx.args[1].id, tx.args[2].amount);
    AsideKept(cfg, w, s1, TokenTransfer(cfg, s, tx, sender).value.0);
    KeptTwice(cfg, w, s, s1, TokenTransfer(cfg, s, tx, sender).value.0);
  }

  lemma ApproveKept(cfg: Config, w: Watch, s: Store, tx: Transaction, sender: Id, kind: Kind, stack: seq<Id>)
    requires Busy(cfg, w, s, tx, sender, kind, stack) && kind.Token? && TokenApprove(cfg, s, tx, sender).Ok?
    ensures Kept(cfg, w, s, TokenApprove(cfg, s, tx, sender).value.0)
  {
    AsideKept(cfg, w, s, TokenApprove(cfg, s, tx, sender).value.0);
  }

  lemma PermitKept(cfg: Config, w: Watch, s: Store, tx: Transaction, sender: Id, kind: Kind, stack: seq<Id>)
    requires Busy(cfg, w, s, tx, sender, kind, stack) && kind.Token? && TokenPermit(cfg, s, tx).Ok?
    ensures Kept(cfg, w, s, TokenPermit(cfg, s, tx).value.0)
  {
    hide PermitNonce;
    AsideKept(cfg, w, s, TokenPermit(cfg, s, tx).value.0);
  }

  /** A delegated transfer out of the account would use a grant, and that grant is still recorded afterwards. */
  lemma TokenTransferFromKept(cfg: Config, w: Watch, s: Store, tx: Transaction, sender: Id, kind: Kind, stack: seq<Id>)
    requires Busy(cfg, w, s, tx, sender, kind, stack) && kind.Token? && TokenTransferFrom(cfg, s, tx, sender).Ok?
    ensures Kept(cfg, w, s, TokenTransferFrom(cfg, s, tx, sender).value.0)
  {
    hide Fit, TransferNative, Backing;
    var owner, to, asset, amount := tx.args[0].id, tx.args[1].id, tx.args[2].id, tx.args[3].amount;
    var s1 := ConsumeAllowance(s, tx.target, owner, sender, asset, amount).value;
    var s2, s' := TransferNative(s1, tx.target, owner, to, asset, amount).value,
      TokenTransferFrom(cfg, s, tx, sender).value.0;
    TransferWrites(s1, tx.target, owner, to, asset, amount);
    if MayPay(w, owner) {
      hide Kept;
      AsideKept(cfg, w, s, s1);
      RegistryFit(cfg, w, s, s1);
      MoveKept(cfg, w, s1, tx.target, owner, to, asset, amount);
      AsideKept(cfg, w, s2, s');
      KeptTwice(cfg, w, s, s1, s2);
      KeptTwice(cfg, w, s, s2, s');
    } else {
      assert Allowance(tx.target, owner, sender, asset) in s'.registry.Keys;
    }
  }

  lemma RegistryFit(cfg: Config, w: Watch, s: Store, s': Store)
    requires Fit(cfg, w, s) && s'.storage == s.storage && s'.outbox == s.outbox && s'.outboundIds == s.outboundIds
    ensures Fit(cfg, w, s')
  {
    hide Supplied, SilentSet;
  }

  lemma PriceKept(cfg: Config, w: Watch, s: Store, tx: Transaction, sender: Id, kind: Kind, stack: seq<Id>)
    requires Busy(cfg, w, s, tx, sender, kind, stack) && kind.Oracle?
             && OracleSubmitPrice(cfg, s, tx, sender, kind.oracleAsset, kind.maxAge).Ok?
    ensures Kept(cfg, w, s, OracleSubmitPrice(cfg, s, tx, sender, kind.oracleAsset, kind.maxAge).value.0)
  {
    hide Kept, Fit;
    KeptSelf(cfg, w, s);
    OwnWrites(cfg, w, s, s, OracleSubmitPrice(cfg, s, tx, sender, kind.oracleAsset, kind.maxAge).value.0, tx, kind,
              stack);
  }

  // ------------------------------------------------------------------------- pools

  lemma {:induction false} SwapKept(cfg: Config, w: Watch, s: Store, tx: Transaction, sender: Id, kind: Kind,
                                    stack: seq<Id>)
    requires Busy(cfg, w, s, tx, sender, kind, stack) && kind.AmmPool? && PoolSwap(cfg, s, tx, sender, kind, stack).Ok?
    ensures Kept(cfg, w, s, PoolSwap(cfg, s, tx, sender, kind, stack).value.0)
    decreases Idle(cfg, stack), 3
  {
    hide Kept, Fit, OnlyOwn, PoolSwap, Quote, SettleSwap, TransferAsset, ResolveLedger;
    FitBasics(cfg, w, s);
    var x, y, out, fee, s1, s2 := SwapParts(cfg, s, tx, sender, kind, stack);
    var pool, input, amountIn := tx.target, tx.args[0].id, tx.args[1].amount;
    var output := OutputOf(kind, input);
    ResolvedFits(cfg, w, s, pool, input);
    ResolvedFits(cfg, w, s, pool, output);
    TransferKept(cfg, w, s, tx, x, sender, pool, input, amountIn, stack, s1);
    TransferKept(cfg, w, s1, tx, y, pool, sender, output, out, stack, s2);
    KeptTwice(cfg, w, s, s1, s2);
    var (final, ret) := PoolSwap(cfg, s, tx, sender, kind, stack).value;
    var reserveIn, reserveOut := Get(s.storage, Reserve(pool, input)), Get(s.storage, Reserve(pool, output));
    SwapIsOwn(s2, Frame(pool, {Reserve(pool, input), Reserve(pool, output), AmmFeeCollected(pool, input)}), pool,
              input, output, reserveIn + amountIn, SaturatingSub(reserveOut, out), fee, out, tx.txHash, final, ret);
    OwnWrites(cfg, w, s, s2, final, tx, kind, stack);
  }

  lemma SwapIsOwn(s: Store, frame: Frame, pool: Id, input: Id, output: Id, newIn: nat, newOut: nat, fee: nat, out: nat,
                  txHash: string, final: Store, ret: Ret)
    requires input != output
    requires SettleSwap(s, frame, pool, input, output, newIn, newOut, fee, out, txHash) == Ok((final, ret))
    ensures OnlyOwn(s, final, pool)
  {
    hide SettleSwap;
    SwapWrites(s, frame, pool, input, output, newIn, newOut, fee, out, txHash, final, ret);
  }

  lemma {:induction false} AddKept(cfg: Config, w: Watch, s: Store, tx: Transaction, sender: Id, kind: Kind,
                                   stack: seq<Id>)
    requires Busy(cfg, w, s, tx, sender, kind, stack) && kind.AmmPool?
             && PoolAddLiquidity(cfg, s, tx, sender, kind, stack).Ok?
    ensures Kept(cfg, w, s, PoolAddLiquidity(cfg, s, tx, sender, kind, stack).value.0)
    decreases Idle(cfg, stack), 3
  {
    hide Kept, Fit, PoolAddLiquidity, SettleLp, TransferAsset, ResolveLedger;
    FitBasics(cfg, w, s);
    var x, y, s1, s2 := AddParts(cfg, s, tx, sender, kind, stack);
    var pool, a, b, amountA, amountB := tx.target, kind.assetA, kind.assetB, tx.args[0].amount, tx.args[1].amount;
    ResolvedFits(cfg, w, s, pool, a);
    ResolvedFits(cfg, w, s, pool, b);
    TransferKept(cfg, w, s, tx, x, sender, pool, a, amountA, stack, s1);
    TransferKept(cfg, w, s1, tx, y, sender, pool, b, amountB, stack, s2);
    KeptTwice(cfg, w, s, s1, s2);
    var (final, ret) := PoolAddLiquidity(cfg, s, tx, sender, kind, stack).value;
    var keyA, keyB := Reserve(pool, a), Reserve(pool, b);
    var newA, newB := Get(s.storage, keyA) + amountA, Get(s.storage, keyB) + amountB;
    LpIsOwn(s2, Frame(pool, {keyA, keyB, LpSupply(pool), LpBalance(pool, sender)}), pool, keyA, newA, keyB, newB,
            sender,
            Get(s.storage, LpSupply(pool)), Get(s.storage, LpBalance(pool, sender)), amountA
              + amountB, tx.txHash, final, ret);
    OwnWrites(cfg, w, s, s2, final, tx, kind, stack);
  }

  lemma LpIsOwn(s: Store, frame: Frame, pool: Id, keyA: StateKey, newA: nat, keyB: StateKey, newB: nat, provider: Id,
                supply: nat, held: nat,
                minted: nat, txHash: string, final: Store, ret: Ret)
    requires keyA.contract == pool && keyB.contract == pool
    requires SettleLp(Put(Put(s, keyA, newA), keyB, newB), frame, pool, provider, supply, held, minted, txHash)
               == Ok((final, ret))
    ensures OnlyOwn(s, final, pool)
  {
    hide SettleLp;
    LpWrites(Put(Put(s, keyA, newA), keyB, newB), frame, pool, provider, supply, held, minted, txHash, final, ret);
  }

  // ------------------------------------------------------------------------ bridge

  lemma {:induction false} QueueKept(cfg: Config, w: Watch, s: Store, tx: Transaction, sender: Id, kind: Kind,
                                     stack: seq<Id>)
    requires Busy(cfg, w, s, tx, sender, kind, stack) && kind.Bridge? && BridgeQueue(cfg, s, tx, sender, stack).Ok?
    ensures Kept(cfg, w, s, BridgeQueue(cfg, s, tx, sender, stack).value.0)
    decreases Idle(cfg, stack), 3
  {
    hide TransferAsset, ResolveLedger, Fit, Kept;
    BridgeIsHeard(cfg, w, s, tx.target);
    var asset, amount := tx.args[4].id, tx.args[5].amount;
    var ledger := ResolveLedger(cfg, s, asset).value;
    var s1 := TransferAsset(cfg, s, tx, ledger, sender, tx.target, asset, amount, stack).value;
    ResolvedFits(cfg, w, s, tx.target, asset);
    TransferKept(cfg, w, s, tx, ledger, sender, tx.target, asset, amount, stack, s1);
    QueuedKept(cfg, w, s1, BridgeQueue(cfg, s, tx, sender, stack).value.0);
    KeptTwice(cfg, w, s, s1, BridgeQueue(cfg, s, tx, sender, stack).value.0);
  }

  lemma BridgeIsHeard(cfg: Config, w: Watch, s: Store, c: Id)
    requires Fit(cfg, w, s) && MayRun(w, c) && IsBridge(cfg, c)
    ensures w.Account?
  {
  }

  lemma QueuedKept(cfg: Config, w: Watch, s: Store, s': Store)
    requires w.Account? && s'.storage == s.storage && s'.registry == s.registry
    ensures Kept(cfg, w, s, s')
  {
  }

  lemma RedeemKept(cfg: Config, w: Watch, s: Store, tx: Transaction, sender: Id, kind: Kind, stack: seq<Id>)
    requires Busy(cfg, w, s, tx, sender, kind, stack) && kind.Bridge?
             && BridgeRedeem(cfg, s, tx, sender, kind.sourceChain).Ok?
    ensures Kept(cfg, w, s, BridgeRedeem(cfg, s, tx, sender, kind.sourceChain).value.0)
  {
    hide Kept, Fit, MintNative, BridgeCertified, ResolveLedger, NativeLedgers;
    var asset, recipient, amount := tx.args[2].id, tx.args[1].id, tx.args[3].amount;
    var token := ResolveLedger(cfg, s, asset).value.token;
    ResolvedIsToken(cfg, s, asset);
    var s1 := MintNative(s, token, recipient, asset, amount).value;
    MintKept(cfg, w, s, token, recipient, asset, amount);
    var s' := BridgeRedeem(cfg, s, tx, sender, kind.sourceChain).value.0;
    MintFit(cfg, w, s, token, recipient, asset, amount, s1);
    OwnWrites(cfg, w, s, s1, s', tx, kind, stack);
  }

  lemma MintFit(cfg: Config, w: Watch, s: Store, token: Id, to: Id, asset: Id, amount: nat, s1: Store)
    requires Fit(cfg, w, s) && token in NativeLedgers(cfg, s.storage, asset)
             && MintNative(s, token, to, asset, amount) == Ok(s1)
    ensures Fit(cfg, w, s1)
  {
    hide MintNative, NativeLedgers, Supplied, SilentSet;
    MintWrites(s, token, to, asset, amount);
    if w.Account? { MintSupplied(cfg, s, token, to, asset, amount); }
  }

  // ----------------------------------------------------------------------- lending

  lemma {:induction false} DepositKept(cfg: Config, w: Watch, s: Store, tx: Transaction, sender: Id, kind: Kind,
                                       stack: seq<Id>)
    requires Busy(cfg, w, s, tx, sender, kind, stack) && kind.LendingVault? && VaultDeposit(cfg, s, tx, kind, stack).Ok?
    ensures Kept(cfg, w, s, VaultDeposit(cfg, s, tx, kind, stack).value.0)
    decreases Idle(cfg, stack), 3
  {
    hide Kept, Fit, VaultDeposit, TransferAsset, ResolveLedger;
    var s1, ledger, amount := DepositParts(cfg, s, tx, kind, stack);
    ResolvedFits(cfg, w, s, tx.target, kind.collateralAsset);
    TransferKept(cfg, w, s, tx, ledger, tx.sender, tx.target, kind.collateralAsset, amount, stack, s1);
    OwnWrites(cfg, w, s, s1, VaultDeposit(cfg, s, tx, kind, stack).value.0, tx, kind, stack);
  }

  lemma AccruedDebtKept(cfg: Config, w: Watch, s: Store, tx: Transaction, sender: Id, borrower: Id, kind: Kind,
                        frame: Frame,
                        accrued: (Store, nat), stack: seq<Id>)
    requires Busy(cfg, w, s, tx, sender, kind, stack) && kind.LendingVault?
             && AccrueDebt(cfg, s, frame, tx.target, borrower, kind) == Ok(accrued)
    ensures Kept(cfg, w, s, accrued.0) && Fit(cfg, w, accrued.0)
  {
    hide Kept, Fit, Linear;
    var log := AccrueDebtSteps(cfg, s, frame, tx.target, borrower, kind, Outer(stack));
    LinearFit(cfg, w, s, log, accrued.0, Outer(stack));
    KeptSelf(cfg, w, s);
    DebtIsOwn(cfg, s, frame, tx.target, borrower, kind, accrued);
    OwnWrites(cfg, w, s, s, accrued.0, tx, kind, stack);
  }

  lemma DebtIsOwn(cfg: Config, s: Store, frame: Frame, vault: Id, borrower: Id, kind: Kind, accrued: (Store, nat))
    requires kind.LendingVault? && AccrueDebt(cfg, s, frame, vault, borrower, kind) == Ok(accrued)
    ensures OnlyOwn(s, accrued.0, vault)
  {
    hide InScope;
  }

  lemma {:induction false} BorrowKept(cfg: Config, w: Watch, s: Store, tx: Transaction, sender: Id, kind: Kind,
                                      stack: seq<Id>)
    requires Busy(cfg, w, s, tx, sender, kind, stack) && kind.LendingVault?
             && VaultBorrow(cfg, s, tx, sender, kind, stack).Ok?
    ensures Kept(cfg, w, s, VaultBorrow(cfg, s, tx, sender, kind, stack).value.0)
    decreases Idle(cfg, stack), 3
  {
    hide Kept, Fit, VaultBorrow, AccrueDebt, TransferAsset, ResolveLedger;
    var accrued, ledger, s2 := BorrowParts(cfg, s, tx, sender, kind, stack);
    var vault, asset := tx.target, kind.debtAsset;
    var frame := Frame(vault, {Debt(vault, sender, asset), DebtLastAccrualHeight(vault, sender, asset)});
    AccruedDebtKept(cfg, w, s, tx, sender, sender, kind, frame, accrued, stack);
    ResolvedFits(cfg, w, accrued.0, vault, asset);
    TransferKept(cfg, w, accrued.0, tx, ledger, vault, sender, asset, tx.args[1].amount, stack, s2);
    KeptTwice(cfg, w, s, accrued.0, s2);
    OwnWrites(cfg, w, s, s2, VaultBorrow(cfg, s, tx, sender, kind, stack).value.0, tx, kind, stack);
  }

  lemma BadDebtKept(cfg: Config, w: Watch, s: Store, s0: Store, tx: Transaction, kind: Kind, frame: Frame,
                    badDebt: nat, s1: Store, stack: seq<Id>)
    requires Kept(cfg, w, s, s0) && Fit(cfg, w, s0) && Running(cfg, tx.target, kind, stack) && kind.LendingVault?
             && MayPay(w, tx.target)
    requires RecordBadDebt(s0, frame, BadDebt(tx.target, kind.debtAsset), badDebt) == Ok(s1)
    ensures Kept(cfg, w, s, s1) && Fit(cfg, w, s1)
  {
    hide Kept, Fit, Linear;
    var key, outer := BadDebt(tx.target, kind.debtAsset), Outer(stack);
    LinearNil(cfg, s0, outer);
    var log := BadDebtSteps(cfg, s0, [], s0, frame, key, badDebt, outer);
    LinearFit(cfg, w, s0, log, s1, outer);
    OwnWrites(cfg, w, s, s0, s1, tx, kind, stack);
  }

  lemma {:induction false} LiquidateKept(cfg: Config, w: Watch, s: Store, tx: Transaction, sender: Id, kind: Kind,
                                         stack: seq<Id>)
    requires Busy(cfg, w, s, tx, sender, kind, stack) && kind.LendingVault?
             && VaultLiquidate(cfg, s, tx, sender, kind, stack).Ok?
    ensures Kept(cfg, w, s, VaultLiquidate(cfg, s, tx, sender, kind, stack).value.0)
    decreases Idle(cfg, stack), 3
  {
    hide Kept, Fit, VaultLiquidate, FreshPrice, AccrueDebt, PlanLiquidation, RecordBadDebt, ResolveLedger,
      TransferAsset, SettleLiquidation;
    var borrower, price, repay, s0, debt, plan, s1, x, y, s2, s3 := LiquidateParts(cfg, s, tx, sender, kind, stack);
    var vault, frame := tx.target, LiquidationFrame(tx.target, borrower, kind);
    AccruedDebtKept(cfg, w, s, tx, sender, borrower, kind, frame, (s0, debt), stack);
    BadDebtKept(cfg, w, s, s0, tx, kind, frame, plan.badDebt, s1, stack);
    ResolvedFits(cfg, w, s1, vault, kind.debtAsset);
    ResolvedFits(cfg, w, s1, vault, kind.collateralAsset);
    TransferKept(cfg, w, s1, tx, x, sender, vault, kind.debtAsset, plan.repaid, stack, s2);
    KeptTwice(cfg, w, s, s1, s2);
    if plan.seized != 0 {
      TransferKept(cfg, w, s2, tx, y, vault, sender, kind.collateralAsset, plan.seized, stack, s3);
      KeptTwice(cfg, w, s, s2, s3);
    }
    LiquidationIsOwn(s3, frame, vault, borrower, kind, plan, tx.txHash);
    OwnWrites(cfg, w, s, s3, VaultLiquidate(cfg, s, tx, sender, kind, stack).value.0, tx, kind, stack);
  }

  lemma LiquidationIsOwn(s: Store, frame: Frame, vault: Id, borrower: Id, kind: Kind, plan: Liquidation, txHash: string)
    requires kind.LendingVault? && SettleLiquidation(s, frame, vault, borrower, kind, plan, txHash).Ok?
    ensures OnlyOwn(s, SettleLiquidation(s, frame, vault, borrower, kind, plan, txHash).value.0, vault)
  {
    hide DebtsCovered, InScope;
  }

  // ----------------------------------------------------------------------- staking

  lemma AccruedKept(cfg: Config, w: Watch, s: Store, tx: Transaction, staker: Id, kind: Kind, s1: Store, stack: seq<Id>)
    requires Busy(cfg, w, s, tx, staker, kind, stack) && kind.Staking?
    requires AccrueRewards(cfg, s, StakingFrame(tx.target, staker, kind.stakingAsset), tx.target, staker,
                           kind.stakingAsset, kind.rewardPerBlock)
          == Ok(s1)
    ensures Kept(cfg, w, s, s1) && Fit(cfg, w, s1)
  {
    hide Kept, Fit, Linear, AccrueRewards;
    var log := AccrueSteps(cfg, s, tx.target, staker, kind, Outer(stack));
    LinearFit(cfg, w, s, log, s1, Outer(stack));
    KeptSelf(cfg, w, s);
    AccrualIsOwn(cfg, s, tx.target, staker, kind.stakingAsset, kind.rewardPerBlock, s1);
    OwnWrites(cfg, w, s, s, s1, tx, kind, stack);
  }

  lemma AccrualIsOwn(cfg: Config, s: Store, c: Id, staker: Id, asset: Id, rate: nat, s1: Store)
    requires AccrueRewards(cfg, s, StakingFrame(c, staker, asset), c, staker, asset, rate) == Ok(s1)
    ensures OnlyOwn(s, s1, c)
  {
    hide AccrueRewards, RewardsDue, OnlyOwn;
    AccrualWrites(cfg, s, c, staker, asset, rate);
    AccruedIsOwn(s, c, staker, asset, cfg.height, RewardsDue(cfg, s.storage, c, staker, asset, rate).value);
  }

  lemma AccruedIsOwn(s: Store, c: Id, staker: Id, asset: Id, height: nat, due: nat)
    ensures OnlyOwn(s, Accrued(s, c, staker, asset, height, due), c)
  {
  }

  lemma PutIsOwn(s: Store, k: StateKey, v: nat)
    ensures OnlyOwn(s, Put(s, k, v), k.contract)
  {
  }

  lemma StakeIsOwn(s: Store, frame: Frame, c: Id, staker: Id, asset: Id, stake: nat, total: nat, amount: nat,
                   txHash: string)
    requires SettleStake(s, frame, c, staker, asset, stake, total, amount, txHash).Ok?
    ensures OnlyOwn(s, SettleStake(s, frame, c, staker, asset, stake, total, amount, txHash).value.0, c)
  {
    hide StakesBalanced, PendingBalanced, InScope;
  }

  lemma {:induction false} StakeKept(cfg: Config, w: Watch, s: Store, tx: Transaction, staker: Id, kind: Kind,
                                     stack: seq<Id>)
    requires Busy(cfg, w, s, tx, staker, kind, stack) && kind.Staking?
             && StakingStake(cfg, s, tx, staker, kind, stack).Ok?
    ensures Kept(cfg, w, s, StakingStake(cfg, s, tx, staker, kind, stack).value.0)
    decreases Idle(cfg, stack), 3
  {
    hide Kept, Fit, StakingStake, AccrueRewards, TransferAsset, ResolveLedger, SettleStake;
    var s1, s2, ledger := StakeParts(cfg, s, tx, staker, kind, stack);
    var c, asset := tx.target, kind.stakingAsset;
    AccruedKept(cfg, w, s, tx, staker, kind, s1, stack);
    ResolvedFits(cfg, w, s1, c, asset);
    TransferKept(cfg, w, s1, tx, ledger, staker, c, asset, tx.args[1].amount, stack, s2);
    KeptTwice(cfg, w, s, s1, s2);
    StakeIsOwn(s2, StakingFrame(c, staker, asset), c, staker, asset, Get(s1.storage, StakeBalance(c, staker, asset)),
               Get(s1.storage, TotalStaked(c, asset)), tx.args[1].amount, tx.txHash);
    OwnWrites(cfg, w, s, s2, StakingStake(cfg, s, tx, staker, kind, stack).value.0, tx, kind, stack);
  }

  lemma WithdrawalKept(cfg: Config, w: Watch, s: Store, s1: Store, tx: Transaction, staker: Id, kind: Kind,
                       amount: nat, penalty: nat, s2: Store,
                       stack: seq<Id>)
    requires Kept(cfg, w, s, s1) && Fit(cfg, w, s1) && Running(cfg, tx.target, kind, stack) && kind.Staking?
             && MayPay(w, tx.target)
    requires Get(s1.storage, StakingLastRewardHeight(tx.target, staker, kind.stakingAsset)) == cfg.height
    requires CheckStake(s1, tx.target, staker, kind.stakingAsset, amount).Ok?
    requires Withdraw(s1, StakingFrame(tx.target, staker, kind.stakingAsset), tx.target, staker, kind.stakingAsset,
                      amount, penalty) == Ok(s2)
    ensures Kept(cfg, w, s, s2) && Fit(cfg, w, s2)
  {
    hide Kept, Fit, Linear, Withdraw;
    var outer := Outer(stack);
    LinearNil(cfg, s1, outer);
    var log := WithdrawSteps(cfg, s1, [], s1, tx.target, staker, kind, amount, penalty, outer);
    LinearFit(cfg, w, s1, log, s2, outer);
    WithdrawalIsOwn(s1, StakingFrame(tx.target, staker, kind.stakingAsset), tx.target, staker, kind.stakingAsset,
                    amount, penalty, s2);
    OwnWrites(cfg, w, s, s1, s2, tx, kind, stack);
  }

  lemma WithdrawalIsOwn(s: Store, frame: Frame, c: Id, staker: Id, asset: Id, amount: nat, penalty: nat, s2: Store)
    requires CheckStake(s, c, staker, asset, amount).Ok?
             && Withdraw(s, frame, c, staker, asset, amount, penalty) == Ok(s2)
    ensures OnlyOwn(s, s2, c)
  {
    hide InScope;
  }

  /** An accrual leaves the height of the last accrual at the present. */
  lemma AccruedNow(cfg: Config, s: Store, c: Id, staker: Id, asset: Id, rate: nat, s1: Store)
    requires AccrueRewards(cfg, s, StakingFrame(c, staker, asset), c, staker, asset, rate) == Ok(s1)
    ensures Get(s1.storage, StakingLastRewardHeight(c, staker, asset)) == cfg.height
  {
    AccrualWrites(cfg, s, c, staker, asset, rate);
  }

  lemma {:induction false} UnstakeKept(cfg: Config, w: Watch, s: Store, tx: Transaction, staker: Id, kind: Kind,
                                       stack: seq<Id>)
    requires Busy(cfg, w, s, tx, staker, kind, stack) && kind.Staking?
             && StakingUnstake(cfg, s, tx, staker, kind, stack).Ok?
    ensures Kept(cfg, w, s, StakingUnstake(cfg, s, tx, staker, kind, stack).value.0)
    decreases Idle(cfg, stack), 3
  {
    hide Kept, Fit, StakingUnstake, AccrueRewards, TransferAsset, ResolveLedger, Withdraw, Penalty;
    var s1, s2, s3, ledger, amount, split := UnstakeParts(cfg, s, tx, staker, kind, stack);
    var c, asset := tx.target, kind.stakingAsset;
    AccruedKept(cfg, w, s, tx, staker, kind, s1, stack);
    AccruedNow(cfg, s, c, staker, asset, kind.rewardPerBlock, s1);
    ResolvedFits(cfg, w, s1, c, asset);
    WithdrawalKept(cfg, w, s, s1, tx, staker, kind, amount, split.1, s2, stack);
    if split.0 != 0 {
      TransferKept(cfg, w, s2, tx, ledger, c, staker, asset, split.0, stack, s3);
      KeptTwice(cfg, w, s, s2, s3);
    }
    OwnWrites(cfg, w, s, s3, StakingUnstake(cfg, s, tx, staker, kind, stack).value.0, tx, kind, stack);
  }

  lemma RequestKept(cfg: Config, w: Watch, s: Store, tx: Transaction, staker: Id, kind: Kind, stack: seq<Id>)
    requires Busy(cfg, w, s, tx, staker, kind, stack) && kind.Staking? && StakingRequest(cfg, s, tx, staker, kind).Ok?
    ensures Kept(cfg, w, s, StakingRequest(cfg, s, tx, staker, kind).value.0)
  {
    hide Kept, Fit, StakingRequest, AccrueRewards, Withdraw, SettleRequest, Penalty;
    var s1, s2, amount, split := RequestParts(cfg, s, tx, staker, kind);
    var c, asset := tx.target, kind.stakingAsset;
    AccruedKept(cfg, w, s, tx, staker, kind, s1, stack);
    AccruedNow(cfg, s, c, staker, asset, kind.rewardPerBlock, s1);
    WithdrawalKept(cfg, w, s, s1, tx, staker, kind, amount, split.1, s2, stack);
    RequestIsOwn(s2, StakingFrame(c, staker, asset), c, staker, asset, split.0, cfg.height + kind.unbondingDelay,
                 tx.txHash);
    OwnWrites(cfg, w, s, s2, StakingRequest(cfg, s, tx, staker, kind).value.0, tx, kind, stack);
  }

  lemma RequestIsOwn(s: Store, frame: Frame, c: Id, staker: Id, asset: Id, released: nat, ready: nat, txHash: string)
    requires SettleRequest(s, frame, c, staker, asset, released, ready, txHash).Ok?
    ensures OnlyOwn(s, SettleRequest(s, frame, c, staker, asset, released, ready, txHash).value.0, c)
  {
    hide SettleRequest;
    RequestWrites(s, frame, c, staker, asset, released, ready, txHash);
  }

  lemma {:induction false} CompleteKept(cfg: Config, w: Watch, s: Store, tx: Transaction, staker: Id, kind: Kind,
                                        stack: seq<Id>)
    requires Busy(cfg, w, s, tx, staker, kind, stack) && kind.Staking?
             && StakingComplete(cfg, s, tx, staker, kind, stack).Ok?
    ensures Kept(cfg, w, s, StakingComplete(cfg, s, tx, staker, kind, stack).value.0)
    decreases Idle(cfg, stack), 3
  {
    hide Kept, Fit, StakingComplete, TransferAsset, ResolveLedger, Linear;
    var s2, s3, ledger, amount := CompleteParts(cfg, s, tx, staker, kind, stack);
    var c, asset := tx.target, kind.stakingAsset;
    var log := ReleaseSteps(cfg, s, c, staker, kind, amount, s2, Outer(stack));
    LinearFit(cfg, w, s, log, s2, Outer(stack));
    KeptSelf(cfg, w, s);
    OwnWrites(cfg, w, s, s, s2, tx, kind, stack);
    ResolvedFits(cfg, w, s2, c, asset);
    TransferKept(cfg, w, s2, tx, ledger, c, staker, asset, amount, stack, s3);
    KeptTwice(cfg, w, s, s2, s3);
    OwnWrites(cfg, w, s, s3, StakingComplete(cfg, s, tx, staker, kind, stack).value.0, tx, kind, stack);
  }

  lemma ClaimKept(cfg: Config, w: Watch, s: Store, tx: Transaction, staker: Id, kind: Kind, stack: seq<Id>)
    requires Busy(cfg, w, s, tx, staker, kind, stack) && kind.Staking? && StakingClaim(cfg, s, tx, staker, kind).Ok?
    ensures Kept(cfg, w, s, StakingClaim(cfg, s, tx, staker, kind).value.0)
  {
    hide Kept, Fit, OnlyOwn, StakingClaim, AccrueRewards, MintNative, NativeLedgers;
    var s1, s3, token, claimed := ClaimParts(cfg, s, tx, staker, kind);
    var rewardKey := StakingRewardBalance(tx.target, staker, kind.stakingAsset);
    var s2, s' := Put(s1, rewardKey, 0), StakingClaim(cfg, s, tx, staker, kind).value.0;
    AccruedKept(cfg, w, s, tx, staker, kind, s1, stack);
    PutIsOwn(s1, rewardKey, 0);
    OwnWrites(cfg, w, s, s1, s2, tx, kind, stack);
    RewardFit(cfg, w, s1, rewardKey);
    if claimed != 0 {
      MintKept(cfg, w, s2, token, staker, kind.stakingAsset, claimed);
      KeptTwice(cfg, w, s, s2, s3);
    }
    NotedKept(cfg, w, s, s3, s');
  }

  /** An event changes nothing that is watched. */
  lemma NotedKept(cfg: Config, w: Watch, s: Store, s1: Store, s': Store)
    requires Kept(cfg, w, s, s1) && s' == s1.(events := s'.events)
    ensures Kept(cfg, w, s, s')
  {
    AsideKept(cfg, w, s1, s');
    hide Kept;
    KeptTwice(cfg, w, s, s1, s');
  }

  lemma RewardFit(cfg: Config, w: Watch, s: Store, key: StateKey)
    requires Fit(cfg, w, s) && key.StakingRewardBalance?
    ensures Fit(cfg, w, Put(s, key, 0))
  {
    hide Supplied, SilentSet;
    if w.Account? {
      PutElsewhere(cfg, s, key, 0);
      forall a | a in Dealt(cfg.contracts[w.book.holder]) ensures Issued(Put(s, key, 0).storage, a) {
        var k :| k in s.storage && k.TotalSupply? && k.asset == a;
        assert k in Put(s, key, 0).storage;
      }
    }
  }

  // ------------------------------------------------------------ routers and aspects

  lemma {:induction false} RouterKept(cfg: Config, w: Watch, s: Store, tx: Transaction, sender: Id, kind: Kind,
                                      stack: seq<Id>)
    requires Busy(cfg, w, s, tx, sender, kind, stack) && kind.Router?
             && RouterTransferFrom(cfg, s, tx, kind.token, stack).Ok?
    ensures Kept(cfg, w, s, RouterTransferFrom(cfg, s, tx, kind.token, stack).value.0)
    decreases Idle(cfg, stack), 3
  {
    hide Kept, ExecuteCall;
    if w.Silence? { assert SilentKind(cfg, kind, w.quiet); }
    CallKept(cfg, w, s, tx.(target := kind.token, selector := TransferFrom, signatureOk := true), tx.target, stack);
  }

  /** What replay may meet: nothing is queued and only the quiet are called. */
  ghost predicate OpsFit(w: Watch, host: Host, ops: seq<HostOp>) {
    w.Silence? ==>
      && (forall op | op in ops :: !op.AppendOutbox?)
      && (forall p | p in host.policy.calls :: p.target.ExactContract? && p.target.contract in w.quiet)
  }

  /** Effect soundness at work: a method whose policy does not let it queue never traces an append. */
  lemma SilentTrace(env: Env, budget: nat, p: Key, args: seq<Value>, quiet: set<Id>)
    requires SilentMethod(env.m, p, quiet)
    ensures forall op | op in ExecuteProjection(env, budget, p, args).trace :: !op.AppendOutbox?
  {
    hide ExecuteProjection, CleanBodies, DirectProjection;
    var root :| Harmless(env.m, p, root);
    ProjectionEffectsSound(env, budget, p, args, root);
    var append := Effect(CrossShardOutboxAppend);
    assert Inferred(env.m, root, append) ==> Permitted(env.m, p.0, env.m.policies[p], append);
    assert append !in Known(env.m, root);
    forall op | op in ExecuteProjection(env, budget, p, args).trace ensures !op.AppendOutbox? {
      assert Covered(env.m, op, Known(env.m, root));
    }
  }

  lemma {:induction false} AspectKept(cfg: Config, w: Watch, s: Store, tx: Transaction, sender: Id, kind: Kind,
                                      stack: seq<Id>)
    requires Busy(cfg, w, s, tx, sender, kind, stack) && kind.Aspect?
    requires ExecuteAspect(cfg, s, tx, sender, kind.moduleHash, kind.bundle, stack).Ok?
    ensures Kept(cfg, w, s, ExecuteAspect(cfg, s, tx, sender, kind.moduleHash, kind.bundle, stack).value.0)
    decreases Idle(cfg, stack), 3
  {
    hide Kept, Replay, ExecuteProjection, SilentMethod, InvariantHolds, WellReferenced;
    var m := cfg.modules[kind.moduleHash].ir;
    var method_ := (kind.bundle, tx.selector.name);
    var context := Context(tx.sender, sender, tx.target, cfg.height, 0);
    var env := Env(m, context, SnapshotOf(m, s.storage, tx.target, kind.bundle), ForeignOf(s.storage));
    var args := seq(|tx.args|, i requires 0 <= i < |tx.args| => ValueOf(tx.args[i]));
    var run := ExecuteProjection(env, tx.budget, method_, args);
    var host := Host(m, kind.bundle, m.policies[method_], Frame(tx.target, AspectScope(m, tx.target, kind.bundle)));
    AspectOpsFit(cfg, w, env, tx.budget, method_, args, kind, host);
    ReplayKept(cfg, w, s, tx, sender, kind, host, run.trace, stack);
  }

  lemma AspectOpsFit(cfg: Config, w: Watch, env: Env, budget: nat, p: Key, args: seq<Value>, kind: Kind, host: Host)
    requires w.Silence? ==> SilentKind(cfg, kind, w.quiet)
    requires kind.Aspect? && kind.moduleHash in cfg.modules && env.m == cfg.modules[kind.moduleHash].ir
             && p.0 == kind.bundle && p in env.m.policies
    requires host.policy == env.m.policies[p] && ExecuteProjection(env, budget, p, args).outcome.Ok?
    ensures OpsFit(w, host, ExecuteProjection(env, budget, p, args).trace)
  {
    if w.Silence? {
      assert p in env.m.projections;
      hide ExecuteProjection, Harmless;
      assert SilentMethod(env.m, p, w.quiet);
      SilentTrace(env, budget, p, args, w.quiet);
    }
  }

  lemma {:induction false} OpKept(cfg: Config, w: Watch, s: Store, tx: Transaction, sender: Id, kind: Kind,
                                  host: Host, op: HostOp, stack: seq<Id>)
    requires Busy(cfg, w, s, tx, sender, kind, stack) && kind.Aspect? && host.frame.contract == tx.target
             && OpsFit(w, host, [op])
    requires ApplyOp(cfg, s, tx, host, op, stack).Ok?
    ensures Fit(cfg, w, ApplyOp(cfg, s, tx, host, op, stack).value)
            && Kept(cfg, w, s, ApplyOp(cfg, s, tx, host, op, stack).value)
    decreases Idle(cfg, stack), 1
  {
    hide Kept, Fit, ExecuteCall, Linear, HostCall, PermitNonce, BridgeCertified, InScope;
    var s' := ApplyOp(cfg, s, tx, host, op, stack).value;
    FitBasics(cfg, w, s);
    var log := OpSteps(cfg, s, tx, host, op, stack);
    LinearFit(cfg, w, s, log, s', Outer(stack));
    KeptSelf(cfg, w, s);
    if op.Call? {
      var call := HostCall(cfg, cfg.contracts[op.contract], op.name, op.args).value;
      CallKept(cfg, w, s, tx.(target := op.contract, selector := call.0, args := call.1), host.frame.contract, stack);
    } else if op.AppendOutbox? {
      assert op in [op];
      QueuedKept(cfg, w, s, s');
    } else {
      OwnWrites(cfg, w, s, s, s', tx, kind, stack);
    }
  }

  lemma {:induction false} ReplayKept(cfg: Config, w: Watch, s: Store, tx: Transaction, sender: Id, kind: Kind,
                                      host: Host, ops: seq<HostOp>,
                                      stack: seq<Id>)
    requires Busy(cfg, w, s, tx, sender, kind, stack) && kind.Aspect? && host.frame.contract == tx.target
             && OpsFit(w, host, ops)
    requires Replay(cfg, s, tx, host, ops, stack).Ok?
    ensures Kept(cfg, w, s, Replay(cfg, s, tx, host, ops, stack).value)
    decreases Idle(cfg, stack), 2, |ops|
  {
    hide Kept, Fit, ApplyOp;
    if ops == [] {
      KeptSelf(cfg, w, s);
    } else {
      var s1 := ApplyOp(cfg, s, tx, host, ops[0], stack).value;
      assert forall op | op in [ops[0]] :: op in ops;
      OpKept(cfg, w, s, tx, sender, kind, host, ops[0], stack);
      ReplayKept(cfg, w, s1, tx, sender, kind, host, ops[1..], stack);
      KeptTwice(cfg, w, s, s1, Replay(cfg, s, tx, host, ops, stack).value);
    }
  }
}
