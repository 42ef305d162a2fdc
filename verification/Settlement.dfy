/** What a committed native call does to whom: amounts paid and received, fees, limits and locks. */
module Settlement {
  import opened Common
  import opened Ledger
  import opened Executor
  import opened Steps
  import opened Supply
  import opened Linearize
  import opened Pools
  import opened Custody
  import opened Lending

  /** An account's holding on a native ledger. */
  function Held(m: Storage, token: Id, account: Id, asset: Id): nat {
    Get(m, Balance(token, account, asset))
  }

  // ----------------------------------------------------------------------- pools

  /**
    A committed swap of native assets: the trader pays the input and receives the returned output,
    which is the quoted one and not below the stated minimum, and the pool books the quoted fee.
  */
  lemma SwapSettles(cfg: Config, s: Store, tx: Transaction, sender: Id, kind: Kind, stack: seq<Id>, tokenIn: Id,
                    tokenOut: Id)
    returns (out: nat, fee: nat)
    requires kind.AmmPool? && kind.assetA != kind.assetB && Supplied(cfg, s.storage)
             && PoolSwap(cfg, s, tx, sender, kind, stack).Ok?
    requires |tx.args| == 3 && tx.args[0].AssetArg? && tx.args[1].AmountArg? && tx.args[2].AmountArg?
    requires ResolveLedger(cfg, s, tx.args[0].id) == Ok(Native(tokenIn))
    requires ResolveLedger(cfg, s, OutputOf(kind, tx.args[0].id)) == Ok(Native(tokenOut))
    ensures var pool, input, output, amountIn :=
              tx.target, tx.args[0].id, OutputOf(kind, tx.args[0].id), tx.args[1].amount;
            var r := PoolSwap(cfg, s, tx, sender, kind, stack).value;
            var m, m' := s.storage, r.0.storage;
            && r.1 == UIntRet(out) && tx.args[2].amount <= out
            && Quote(Get(m, Reserve(pool, input)), Get(m, Reserve(pool, output)), amountIn, kind.feeBps)
               == Ok((out, fee))
            && Held(m', tokenIn, sender, input) == Held(m, tokenIn, sender, input) - amountIn
            && Held(m', tokenOut, sender, output) == Held(m, tokenOut, sender, output) + out
            && Get(m', AmmFeeCollected(pool, input)) == Get(m, AmmFeeCollected(pool, input)) + fee
  {
    hide PoolSwap, Quote, TransferAsset, Supplied, ResolveLedger, SettleSwap;
    var x, y, s1, s2;
    x, y, out, fee, s1, s2 := SwapParts(cfg, s, tx, sender, kind, stack);
    SwapMinimum(cfg, s, tx, sender, kind, stack);
    var pool, input, output, amountIn := tx.target, tx.args[0].id, OutputOf(kind, tx.args[0].id), tx.args[1].amount;
    var net := QuoteFacts(Get(s.storage, Reserve(pool, input)), Get(s.storage, Reserve(pool, output)), amountIn,
                          kind.feeBps);
    Moved(cfg, s, tx, tokenIn, sender, pool, input, amountIn, stack, s1);
    ResolvedIsToken(cfg, s, input);
    TransferKeepsSupplied(cfg, s, tx, tokenIn, sender, pool, input, amountIn, stack, s1);
    Moved(cfg, s1, tx, tokenOut, pool, sender, output, out, stack, s2);
    SwapBooked(s2, Frame(pool, {Reserve(pool, input), Reserve(pool, output), AmmFeeCollected(pool, input)}), pool,
               input, output,
               Get(s.storage, Reserve(pool, input))
                 + amountIn, SaturatingSub(Get(s.storage, Reserve(pool, output)), out), fee, out, tx.txHash);
  }

  lemma SwapMinimum(cfg: Config, s: Store, tx: Transaction, sender: Id, kind: Kind, stack: seq<Id>)
    requires kind.AmmPool? && PoolSwap(cfg, s, tx, sender, kind, stack).Ok?
    ensures |tx.args| == 3 && tx.args[0].AssetArg? && tx.args[1].AmountArg? && tx.args[2].AmountArg?
    ensures var input, output := tx.args[0].id, OutputOf(kind, tx.args[0].id);
            var quote := Quote(Get(s.storage, Reserve(tx.target, input)), Get(s.storage, Reserve(tx.target, output)),
                               tx.args[1].amount, kind.feeBps);
            quote.Ok? && tx.args[2].amount <= quote.value.0
  {
    hide Quote, TransferAsset, ResolveLedger, SettleSwap;
  }

  lemma SwapBooked(s: Store, frame: Frame, pool: Id, input: Id, output: Id, newIn: nat, newOut: nat, fee: nat,
                   out: nat, txHash: string)
    requires SettleSwap(s, frame, pool, input, output, newIn, newOut, fee, out, txHash).Ok?
    ensures var r := SettleSwap(s, frame, pool, input, output, newIn, newOut, fee, out, txHash).value;
            && r.1 == UIntRet(out) && Get(r.0.storage, AmmFeeCollected(pool, input))
               == Get(s.storage, AmmFeeCollected(pool, input)) + fee
            && forall k: StateKey | k.Balance? :: Get(r.0.storage, k) == Get(s.storage, k)
  {
    hide LpBalanced, InScope;
  }

  /** A committed deposit credits the provider with as many liquidity tokens as were minted: the sum of both amounts. */
  lemma DepositMints(cfg: Config, s: Store, tx: Transaction, sender: Id, kind: Kind, stack: seq<Id>)
    requires WellFormed(cfg) && Indexed(s) && Running(cfg, tx.target, kind, stack) && kind.AmmPool?
             && PoolAddLiquidity(cfg, s, tx, sender, kind, stack).Ok?
    ensures |tx.args| == 2 && tx.args[0].AmountArg? && tx.args[1].AmountArg?
    ensures var pool, minted := tx.target, tx.args[0].amount + tx.args[1].amount;
            var r := PoolAddLiquidity(cfg, s, tx, sender, kind, stack).value;
            var m, m' := s.storage, r.0.storage;
            && r.1 == UIntRet(minted)
            && Get(m', LpBalance(pool, sender)) == Get(m, LpBalance(pool, sender)) + minted
            && Get(m', LpSupply(pool)) == Get(m, LpSupply(pool)) + minted == Total(m', LpBalancesOf(pool))
            && Get(m', Reserve(pool, kind.assetA)) == Get(m, Reserve(pool, kind.assetA)) + tx.args[0].amount
            && Get(m', Reserve(pool, kind.assetB)) == Get(m, Reserve(pool, kind.assetB)) + tx.args[1].amount
  {
    hide PoolAddLiquidity, SettleLp, TransferAsset, ResolveLedger, Total;
    var x, y, s1, s2 := AddParts(cfg, s, tx, sender, kind, stack);
    var pool, keyA, keyB := tx.target, Reserve(tx.target, kind.assetA), Reserve(tx.target, kind.assetB);
    var s4 := Put(Put(s2, keyA, Get(s.storage, keyA) + tx.args[0].amount), keyB,
                  Get(s.storage, keyB) + tx.args[1].amount);
    LpBooked(s4, Frame(pool, {keyA, keyB, LpSupply(pool), LpBalance(pool, sender)}), pool, sender,
             Get(s.storage, LpSupply(pool)),
             Get(s.storage, LpBalance(pool, sender)), tx.args[0].amount + tx.args[1].amount, tx.txHash);
  }

  lemma LpBooked(s: Store, frame: Frame, pool: Id, provider: Id, supply: nat, held: nat, minted: nat, txHash: string)
    requires SettleLp(s, frame, pool, provider, supply, held, minted, txHash).Ok?
    ensures var r := SettleLp(s, frame, pool, provider, supply, held, minted, txHash).value;
            && r.1 == UIntRet(minted)
            && Get(r.0.storage, LpBalance(pool, provider)) == held + minted
            && Get(r.0.storage, LpSupply(pool)) == supply + minted == Total(r.0.storage, LpBalancesOf(pool))
            && forall k: StateKey | k.Reserve? :: Get(r.0.storage, k) == Get(s.storage, k)
  {
    hide InScope, Total;
  }

  // --------------------------------------------------------------------- lending

  /** Interest is charged once per block: accruing again at the same height adds nothing. */
  lemma AccrueDebtOnce(cfg: Config, s: Store, frame: Frame, vault: Id, borrower: Id, kind: Kind)
    requires kind.LendingVault? && AccrueDebt(cfg, s, frame, vault, borrower, kind).Ok?
    ensures var once := AccrueDebt(cfg, s, frame, vault, borrower, kind).value;
            var twice := AccrueDebt(cfg, once.0, frame, vault, borrower, kind);
            twice.Ok? ==> twice.value.1 == once.1
  {
    hide InScope;
    var once := AccrueDebt(cfg, s, frame, vault, borrower, kind).value;
    assert once.1 * kind.interestBps * 0 == 0;
  }

  lemma BorrowLimit(cfg: Config, s: Store, tx: Transaction, sender: Id, kind: Kind, stack: seq<Id>) returns (price: nat)
    requires kind.LendingVault? && VaultBorrow(cfg, s, tx, sender, kind, stack).Ok?
    ensures |tx.args| == 2 && tx.args[1].AmountArg? && tx.args[1].amount > 0
            && FreshPrice(cfg, s.storage, kind) == Ok(price)
    ensures var vault, asset := tx.target, kind.debtAsset;
            var accrued := AccrueDebt(cfg, s,
                                      Frame(vault,
                                            {Debt(vault, sender, asset),
                                             DebtLastAccrualHeight(vault, sender, asset)}), vault, sender, kind);
            var limit := DebtLimit(Get(s.storage, Collateral(vault, sender, kind.collateralAsset)), price, kind.ltvBps);
            accrued.Ok? && limit.Ok? && accrued.value.1 + tx.args[1].amount <= limit.value
  {
    hide AccrueDebt, DebtLimit, FreshPrice, TransferAsset, ResolveLedger;
    price := FreshPrice(cfg, s.storage, kind).value;
  }

  /**
    A committed loan of a native asset: the debt with interest grows by what is handed out, to the
    borrower and from the vault, and stays within the limit its collateral allows at a fresh price.
  */
  lemma BorrowSettles(cfg: Config, s: Store, tx: Transaction, sender: Id, kind: Kind, stack: seq<Id>, token: Id)
    returns (s0: Store, debt: nat, price: nat)
    requires kind.LendingVault? && Supplied(cfg, s.storage) && KeptBy(cfg, s.storage, kind.debtAsset, token)
    requires VaultBorrow(cfg, s, tx, sender, kind, stack).Ok?
    ensures |tx.args| == 2 && tx.args[1].AmountArg?
    ensures var vault, asset, amount := tx.target, kind.debtAsset, tx.args[1].amount;
            var m, m' := s.storage, VaultBorrow(cfg, s, tx, sender, kind, stack).value.0.storage;
            var limit := DebtLimit(Get(m, Collateral(vault, sender, kind.collateralAsset)), price, kind.ltvBps);
            && FreshPrice(cfg, m, kind) == Ok(price) && price > 0
            && Owes(cfg, s, vault, sender, kind,
                    Frame(vault, {Debt(vault, sender, asset), DebtLastAccrualHeight(vault, sender, asset)}), s0, debt)
            && Get(m', Debt(vault, sender, asset)) == debt + amount && limit.Ok? && debt + amount <= limit.value
            && Held(m', token, sender, asset) == Held(m, token, sender, asset) + amount
            && Held(m', token, vault, asset) == Held(m, token, vault, asset) - amount
  {
    price := BorrowLimit(cfg, s, tx, sender, kind, stack);
    var accrued, ledger, s2 := BorrowParts(cfg, s, tx, sender, kind, stack);
    s0, debt := accrued.0, accrued.1;
    hide VaultBorrow, AccrueDebt, DebtLimit, TransferAsset, ResolveLedger, Supplied, KeptBy;
    var vault, asset := tx.target, kind.debtAsset;
    AccrueDebtWrites(cfg, s, vault, sender, kind,
                     Frame(vault, {Debt(vault, sender, asset), DebtLastAccrualHeight(vault, sender, asset)}), s0, debt);
    KeptByResolves(cfg, s0, asset, token);
    Moved(cfg, s0, tx, token, vault, sender, asset, tx.args[1].amount, stack, s2);
  }

  // --------------------------------------------------------------------- staking

  lemma RequestReady(cfg: Config, s: Store, tx: Transaction, staker: Id, kind: Kind)
    requires kind.Staking? && StakingRequest(cfg, s, tx, staker, kind).Ok?
    ensures Get(StakingRequest(cfg, s, tx, staker, kind).value.0.storage,
                UnbondReadyHeight(tx.target, staker, kind.stakingAsset))
         == cfg.height + kind.unbondingDelay
  {
    hide AccrueRewards, Withdraw, Penalty, StakesBalanced, PendingBalanced, CheckStake, InScope;
    var s1, s2, amount, split := RequestParts(cfg, s, tx, staker, kind);
  }

  // -------------------------------------------------------------- tokens and bridge

  /**
    A delegated transfer moves exactly the amount from the owner, within a live grant's remaining limit, which it
    uses up.
  */
  lemma DelegatedTransferSettles(cfg: Config, s: Store, tx: Transaction, sender: Id)
    requires Supplied(cfg, s.storage) && TokenTransferFrom(cfg, s, tx, sender).Ok?
    ensures |tx.args| == 4 && tx.args[0].PrincipalArg? && tx.args[1].PrincipalArg? && tx.args[2].AssetArg?
            && tx.args[3].AmountArg?
    ensures var token, owner, to, asset, amount :=
              tx.target, tx.args[0].id, tx.args[1].id, tx.args[2].id, tx.args[3].amount;
            var s' := TokenTransferFrom(cfg, s, tx, sender).value.0;
            var key := Allowance(token, owner, sender, asset);
            && key in s.registry && key in s'.registry && s.registry[key].active && !s.registry[key].revoked
            && s.registry[key].subject == sender
            && s'.registry[key] == s.registry[key].(spent := s.registry[key].spent + amount)
            && (s.registry[key].limit.Some? && amount > 0 ==> s'.registry[key].spent <= s.registry[key].limit.value)
            && (amount > 0 ==>
                owner != to && Held(s'.storage, token, owner, asset) == Held(s.storage, token, owner, asset) - amount
                               && Held(s'.storage, token, to, asset) == Held(s.storage, token, to, asset) + amount)
  {
    hide TransferNative, Supplied, Balanced;
    var token, owner, to, asset, amount := tx.target, tx.args[0].id, tx.args[1].id, tx.args[2].id, tx.args[3].amount;
    var s1 := ConsumeAllowance(s, token, owner, sender, asset, amount).value;
    SuppliedBalances(cfg, s.storage, token, asset);
    TransferExact(s1, token, owner, to, asset, amount);
    TransferWrites(s1, token, owner, to, asset, amount);
  }

  lemma SuppliedBalances(cfg: Config, m: Storage, token: Id, asset: Id)
    requires Supplied(cfg, m)
    ensures Balanced(m, token, asset)
  {
  }

  /** Queueing a native asset escrows exactly the amount the message promises. */
  lemma QueueEscrows(cfg: Config, s: Store, tx: Transaction, sender: Id, stack: seq<Id>, token: Id)
    requires Supplied(cfg, s.storage) && BridgeQueue(cfg, s, tx, sender, stack).Ok?
    requires ResolveLedger(cfg, s, tx.args[4].id) == Ok(Native(token))
    ensures var asset, amount, s' := tx.args[4].id, tx.args[5].amount, BridgeQueue(cfg, s, tx, sender, stack).value.0;
            && sender != tx.target
            && Held(s'.storage, token, sender, asset) == Held(s.storage, token, sender, asset) - amount
            && Held(s'.storage, token, tx.target, asset) == Held(s.storage, token, tx.target, asset) + amount
            && |s'.outbox| == |s.outbox| + 1 && s'.outbox[..|s.outbox|] == s.outbox
            && var message := s'.outbox[|s.outbox|];
               message.sourceContract == tx.target && message.asset == asset && message.amount == amount
                 && message.id == tx.args[2].text
  {
    hide TransferAsset, ResolveLedger, Supplied;
    var asset, amount := tx.args[4].id, tx.args[5].amount;
    var s1 := TransferAsset(cfg, s, tx, Native(token), sender, tx.target, asset, amount, stack).value;
    Moved(cfg, s, tx, token, sender, tx.target, asset, amount, stack, s1);
    NativeKeepsOutbox(cfg, s, tx, token, sender, tx.target, asset, amount, stack);
  }

  lemma NativeKeepsOutbox(cfg: Config, s: Store, tx: Transaction, token: Id, from: Id, to: Id, asset: Id, amount: nat,
                          stack: seq<Id>)
    requires TransferAsset(cfg, s, tx, Native(token), from, to, asset, amount, stack).Ok?
    ensures TransferAsset(cfg, s, tx, Native(token), from, to, asset, amount, stack).value.outbox == s.outbox
  {
    TransferWrites(s, token, from, to, asset, amount);
  }
}
