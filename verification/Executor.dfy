/**
  Contract execution: the dispatcher with its reentrancy guard, the native contract
  methods, and the replay of aspect traces, which may call back into the dispatcher.
*/
module Executor {
  import opened Common
  import opened AspectIr
  import opened Closure
  import opened Evaluator
  import opened Merkle
  import opened Ledger

  type Exec = Result<Store, Error>
  type Called = Result<(Store, Ret), Error>

  // ------------------------------------------------------------- guarded storage

  /** The contract whose code is running and the keys it may write. */
  datatype Frame = Frame(contract: Id, scope: set<StateKey>)

  /** A key is in scope itself, or as an entry of an aspect state that is. */
  predicate InScope(scope: set<StateKey>, k: StateKey) {
    k in scope || (k.AspectState? && k.key != [] && k.(key := []) in scope)
  }

  function Write(s: Store, frame: Frame, k: StateKey, v: nat): Exec {
    if k.contract != frame.contract then Err(ContractIsolationViolation)
    else if !InScope(frame.scope, k) then Err(WriteScopeViolation)
    else Ok(s.(storage := s.storage[k := v]))
  }

  function Add(a: nat, b: nat): Result<nat, Error> {
    if a + b <= U128_MAX then Ok(a + b) else Err(Overflow)
  }

  function Mul(a: nat, b: nat): Result<nat, Error> {
    if a * b <= U128_MAX then Ok(a * b) else Err(Overflow)
  }

  function Emit(s: Store, contract: Id, txHash: string, payload: Payload): Store {
    s.(events := s.events + [Event(contract, txHash, |s.events|, payload)])
  }

  // ---------------------------------------------------------------- native ledger

  /** `token_invariants_hold`: the balances add up, without overflow, to the recorded supply. */
  ghost predicate Balanced(m: Storage, token: Id, asset: Id) {
    Total(m, BalancesOf(token, asset)) == Get(m, TotalSupply(token, asset)) <= U128_MAX
  }

  ghost function TransferNative(s: Store, token: Id, from: Id, to: Id, asset: Id, amount: nat): Exec {
    var fromKey, toKey := Balance(token, from, asset), Balance(token, to, asset);
    var frame := Frame(token, {fromKey, toKey});
    var held := Get(s.storage, fromKey);
    if held < amount then Err(InsufficientBalance)
    else
      var credited :- Add(Get(s.storage, toKey), amount);
      var s1 :- Write(s, frame, fromKey, held - amount);
      var s2 :- Write(s1, frame, toKey, credited);
      if Balanced(s2.storage, token, asset) then Ok(s2) else Err(InvariantViolation)
  }

  ghost function MintNative(s: Store, token: Id, to: Id, asset: Id, amount: nat): Exec {
    var supplyKey, toKey := TotalSupply(token, asset), Balance(token, to, asset);
    var frame := Frame(token, {supplyKey, toKey});
    var supply :- Add(Get(s.storage, supplyKey), amount);
    var credited :- Add(Get(s.storage, toKey), amount);
    var s1 :- Write(s, frame, supplyKey, supply);
    var s2 :- Write(s1, frame, toKey, credited);
    if Balanced(s2.storage, token, asset) then Ok(s2) else Err(InvariantViolation)
  }

  predicate IsToken(cfg: Config, c: Id) {
    c in cfg.contracts && cfg.contracts[c].Token?
  }

  datatype LedgerRef = Native(token: Id) | AspectToken(contract: Id)

  /** The token contracts that record a supply of an asset. */
  function NativeLedgers(cfg: Config, m: Storage, asset: Id): set<Id> {
    set k | k in m && k.TotalSupply? && k.asset == asset && IsToken(cfg, k.contract) :: k.contract
  }

  const ERC20_TRANSFER: string := "ERC20-transfer"

  predicate Exports(cfg: Config, kind: Kind, selector: Method) {
    match kind
    case Token => selector.Transfer? || selector.Approve? || selector.TransferFrom? || selector.Permit?
    case AmmPool(_, _, _) => selector.AddLiquidity? || selector.Swap?
    case Oracle(_, _) => selector.SubmitPrice?
    case Bridge(_) => selector.QueueBridgeMessage? || selector.RedeemBridgeMessage?
    case LendingVault(_, _, _, _, _, _, _) => selector.DepositCollateral? || selector.Borrow? || selector.Liquidate?
    case Staking(_, _, _, _) =>
      selector.Stake? || selector.Unstake? || selector.RequestUnstake? || selector.CompleteUnstake?
        || selector.ClaimStakingRewards?
    case Router(_) => selector.RouteTransferFrom?
    case Aspect(hash, bundle) =>
      selector.Other? && hash in cfg.modules && (bundle, selector.name) in cfg.modules[hash].ir.projections
  }

  function AspectLedger(cfg: Config, asset: Id): bool {
    asset in cfg.contracts && cfg.contracts[asset].Aspect? && Exports(cfg, cfg.contracts[asset], Other(ERC20_TRANSFER))
  }

  ghost function ResolveLedger(cfg: Config, s: Store, asset: Id): Result<LedgerRef, Error> {
    var natives := NativeLedgers(cfg, s.storage, asset);
    if |natives| > 1 || (natives == {} <==> !AspectLedger(cfg, asset)) then Err(InvalidPoolAsset)
    else if natives == {} then Ok(AspectToken(asset))
    else
      var token :| token in natives;
      Ok(Native(token))
  }

  // --------------------------------------------------------------- certificates

  function Split(s: string): (r: seq<string>)
    ensures r != []
  {
    if s == "" then [""]
    else
      var rest := Split(s[1..]);
      if s[0] == ':' then [""] + rest else [[s[0]] + rest[0]] + rest[1..]
  }

  /** The nonce of a permit that spells out exactly this authorization. */
  function PermitNonce(text: string, chain: Id, contract: Id, owner: Id, spender: Id, asset: Id,
                       amount: nat): Option<string> {
    var parts := Split(text);
    if |parts| == 8 && parts[..7] == ["permit", chain, contract, owner, spender, asset, Decimal(amount)] then
      Some(parts[7]) else None
  }

  predicate AllDistinct(ids: seq<Id>) {
    forall i, j | 0 <= i < j < |ids| :: ids[i] != ids[j]
  }

  /** The proof is for exactly this message, and enough distinct trusted validators signed it. */
  predicate FinalityAccepted(proof: FinalityProof, set_: ValidatorSet, expected: Message) {
    && 0 < proof.quorum <= |proof.signers| && AllDistinct(proof.signers)
    && proof.blockHash != ""
    && Verify(proof.proof, proof.message) && proof.proof.root == proof.outboxRoot
    && proof.sourceChain == expected.sourceChain
    && proof.message.sourceChain == proof.sourceChain && proof.message.sourceHeight == proof.sourceHeight
    && proof.message.destinationChain == expected.destinationChain
    && proof.message.destinationContract == expected.destinationContract
    && proof.message.id == expected.id && proof.message.recipient == expected.recipient
    && proof.message.asset == expected.asset && proof.message.amount == expected.amount
    && set_.sourceChain != "" && set_.validators != {} && 0 < set_.quorum <= |set_.validators|
    && proof.sourceChain == set_.sourceChain && proof.quorum == set_.quorum
    && (forall i | 0 <= i < |proof.signers| :: proof.signers[i] in set_.validators)
    && |proof.signers| >= set_.quorum
  }

  /** A certificate text shows that `source` finalized this transfer to `contract`. */
  predicate BridgeCertified(cfg: Config, text: string, source: Id, contract: Id, id: string, recipient: Id, asset: Id,
                            amount: nat) {
    && text in cfg.proofs && source in cfg.trusted
    && FinalityAccepted(cfg.proofs[text], cfg.trusted[source],
                        Message(source, "", 0, cfg.chainId, contract, id, recipient, asset, amount))
  }

  // ----------------------------------------------------------- token and oracle

  ghost function TokenTransfer(cfg: Config, s: Store, tx: Transaction, sender: Id): Called {
    if !(|tx.args| == 3 && tx.args[0].PrincipalArg? && tx.args[1].AssetArg? && tx.args[2].AmountArg?) then
      Err(InvalidArguments)
    else
      var s1 :- TransferNative(s, tx.target, sender, tx.args[0].id, tx.args[1].id, tx.args[2].amount);
      Ok((Emit(s1, tx.target, tx.txHash, Notice("transfer")), UnitRet))
  }

  function TokenApprove(cfg: Config, s: Store, tx: Transaction, sender: Id): Called {
    if !(|tx.args| == 3 && tx.args[0].PrincipalArg? && tx.args[1].AssetArg? && tx.args[2].AmountArg?) then
      Err(InvalidArguments)
    else
      var spender := tx.args[0].id;
      var s1 := s.(registry := s.registry[Allowance(tx.target, sender, spender, tx.args[1].id)
                                         := Grant(spender, true, false, Some(tx.args[2].amount), 0)]);
      Ok((Emit(s1, tx.target, tx.txHash, Notice("approval")), UnitRet))
  }

  function ConsumeAllowance(s: Store, token: Id, owner: Id, spender: Id, asset: Id, amount: nat): Exec {
    var key := Allowance(token, owner, spender, asset);
    if key !in s.registry then Err(RegistryGrantMissing)
    else
      var grant := s.registry[key];
      if !grant.active then Err(RegistryGrantInactive)
      else if grant.revoked then Err(RegistryGrantRevoked)
      else if grant.subject != spender then Err(RegistryGrantMissing)
      else if (if grant.limit.None? then U128_MAX else SaturatingSub(grant.limit.value, grant.spent)) < amount then
        Err(AllowanceExceeded)
      else
        var spent :- Add(grant.spent, amount);
        Ok(s.(registry := s.registry[key := grant.(spent := spent)]))
  }

  ghost function TokenTransferFrom(cfg: Config, s: Store, tx: Transaction, sender: Id): Called {
    if !(|tx.args| == 4 && tx.args[0].PrincipalArg? && tx.args[1].PrincipalArg? && tx.args[2].AssetArg?
         && tx.args[3].AmountArg?)
    then Err(InvalidArguments)
    else
      var s1 :- ConsumeAllowance(s, tx.target, tx.args[0].id, sender, tx.args[2].id, tx.args[3].amount);
      var s2 :- TransferNative(s1, tx.target, tx.args[0].id, tx.args[1].id, tx.args[2].id, tx.args[3].amount);
      Ok((Emit(s2, tx.target, tx.txHash, Notice("transfer")), UnitRet))
  }

  function TokenPermit(cfg: Config, s: Store, tx: Transaction): Called {
    if !(|tx.args| == 5 && tx.args[0].PrincipalArg? && tx.args[1].PrincipalArg? && tx.args[2].AssetArg?
         && tx.args[3].AmountArg?
         && tx.args[4].CertificateArg?) then Err(InvalidArguments)
    else
      var owner, spender, asset, amount := tx.args[0].id, tx.args[1].id, tx.args[2].id, tx.args[3].amount;
      var nonce := PermitNonce(tx.args[4].text, cfg.chainId, tx.target, owner, spender, asset, amount);
      if nonce.None? then Err(InvalidCertificate)
      else if nonce.value in s.certificates then Err(CertificateReplay)
      else
        var s1 := s.(certificates := s.certificates + {nonce.value},
                     registry := s.registry[Allowance(tx.target, owner, spender, asset) :=
                                            Grant(spender, true, false, Some(amount), 0)]);
        Ok((Emit(s1, tx.target, tx.txHash, Notice("approval")), UnitRet))
  }

  /** A live updater grant for the oracle. */
  predicate MayUpdate(s: Store, oracle: Id, updater: Id) {
    var key := OracleUpdater(oracle, updater);
    key in s.registry && s.registry[key].active && !s.registry[key].revoked && s.registry[key].subject == updater
  }

  function OracleSubmitPrice(cfg: Config, s: Store, tx: Transaction, sender: Id, asset: Id, maxAge: nat): Called {
    if !(|tx.args| == 3 && tx.args[0].AssetArg? && tx.args[1].AmountArg? && tx.args[2].AmountArg?) then
      Err(InvalidArguments)
    else
      var price, timestamp := tx.args[1].amount, tx.args[2].amount;
      if timestamp > U64_MAX then Err(Overflow)
      else if tx.args[0].id != asset then Err(InvalidPoolAsset)
      else if price == 0 then Err(InvariantViolation)
      else if SaturatingAdd64(timestamp, maxAge) < cfg.height then Err(StaleOraclePrice)
      else if !MayUpdate(s, tx.target, sender) then Err(UnauthorizedOracleUpdater)
      else
        var priceKey, timeKey := OraclePrice(tx.target, asset), OracleTimestamp(tx.target, asset);
        var frame := Frame(tx.target, {priceKey, timeKey});
        var s1 :- Write(s, frame, priceKey, price);
        var s2 :- Write(s1, frame, timeKey, timestamp);
        Ok((Emit(s2, tx.target, tx.txHash, Notice("price")), UnitRet))
  }

  // ------------------------------------------------------------------ arithmetic

  const BPS: nat := 10_000

  /** What is left of an input after the pool's fee. */
  function AfterFee(amount: nat, feeBps: nat): Result<nat, Error> {
    if feeBps > BPS then Err(InvalidArguments)
    else
      var scaled :- Mul(amount, BPS - feeBps);
      Ok(scaled / BPS)
  }

  /** Output and fee of a swap against the given reserves. */
  function Quote(reserveIn: nat, reserveOut: nat, amountIn: nat, feeBps: nat): Result<(nat, nat), Error> {
    if reserveIn == 0 || reserveOut == 0 then Err(InsufficientLiquidity)
    else
      var net :- AfterFee(amountIn, feeBps);
      var numerator :- Mul(reserveOut, net);
      var denominator :- Add(reserveIn, net);
      var out := numerator / denominator;
      if out == 0 || out > reserveOut then Err(InsufficientLiquidity) else Ok((out, SaturatingSub(amountIn, net)))
  }

  function DebtLimit(collateral: nat, price: nat, bps: nat): Result<nat, Error> {
    var value :- Mul(collateral, price);
    var scaled :- Mul(value, bps);
    Ok(scaled / BPS)
  }

  function DivCeil(n: nat, d: nat): Result<nat, Error> {
    if d == 0 then Err(Overflow)
    else
      var up :- Add(n, d - 1);
      Ok(up / d)
  }

  /** Released part and penalty of an unstaked amount. */
  function Penalty(amount: nat, bps: nat): Result<(nat, nat), Error> {
    if bps > BPS then Err(InvalidArguments)
    else
      var scaled :- Mul(amount, bps);
      var penalty := scaled / BPS;
      Ok((SaturatingSub(amount, penalty), penalty))
  }

  // ---------------------------------------------------------- the call machinery

  function Members(stack: seq<Id>): set<Id> {
    set c | c in stack
  }

  /** Contracts not yet on the stack; it shrinks with every nested call. */
  function Idle(cfg: Config, stack: seq<Id>): set<Id> {
    cfg.contracts.Keys - Members(stack)
  }

  /** Enters the target unless it is already active, and runs its method. */
  ghost function ExecuteCall(cfg: Config, s: Store, tx: Transaction, sender: Id, stack: seq<Id>): Called
    decreases Idle(cfg, stack), 0
  {
    if tx.target in stack then Err(ReentrancyViolation)
    else if tx.target !in cfg.contracts then Err(ContractNotFound)
    else if !Exports(cfg, cfg.contracts[tx.target], tx.selector) then Err(MethodNotExported)
    else if cfg.contracts[tx.target].Oracle? && !MayUpdate(s, tx.target, sender) then Err(UnauthorizedOracleUpdater)
    else if tx.target in cfg.paused then Err(ContractPaused)
    else
      assert tx.target in Idle(cfg, stack) && tx.target !in Idle(cfg, stack + [tx.target]);
      assert Idle(cfg, stack + [tx.target]) <= Idle(cfg, stack);
      Dispatch(cfg, s, tx, sender, cfg.contracts[tx.target], stack + [tx.target])
  }

  ghost function Dispatch(cfg: Config, s: Store, tx: Transaction, sender: Id, kind: Kind, stack: seq<Id>): Called
    decreases Idle(cfg, stack), 4
  {
    match kind
    case Token =>
      (match tx.selector
       case Transfer => TokenTransfer(cfg, s, tx, sender)
       case Approve => TokenApprove(cfg, s, tx, sender)
       case TransferFrom => TokenTransferFrom(cfg, s, tx, sender)
       case Permit => TokenPermit(cfg, s, tx)
       case _ => Err(PolicyMissing))
    case AmmPool(_, _, _) =>
      (match tx.selector
       case AddLiquidity => PoolAddLiquidity(cfg, s, tx, sender, kind, stack)
       case Swap => PoolSwap(cfg, s, tx, sender, kind, stack)
       case _ => Err(PolicyMissing))
    case Oracle(asset, maxAge) => OracleSubmitPrice(cfg, s, tx, sender, asset, maxAge)
    case Bridge(source) =>
      (match tx.selector
       case QueueBridgeMessage => BridgeQueue(cfg, s, tx, sender, stack)
       case RedeemBridgeMessage => BridgeRedeem(cfg, s, tx, sender, source)
       case _ => Err(PolicyMissing))
    case LendingVault(_, _, _, _, _, _, _) =>
      (match tx.selector
       case DepositCollateral => VaultDeposit(cfg, s, tx, kind, stack)
       case Borrow => VaultBorrow(cfg, s, tx, sender, kind, stack)
       case Liquidate => VaultLiquidate(cfg, s, tx, sender, kind, stack)
       case _ => Err(PolicyMissing))
    case Staking(_, _, _, _) =>
      (match tx.selector
       case Stake => StakingStake(cfg, s, tx, sender, kind, stack)
       case Unstake => StakingUnstake(cfg, s, tx, sender, kind, stack)
       case RequestUnstake => StakingRequest(cfg, s, tx, sender, kind)
       case CompleteUnstake => StakingComplete(cfg, s, tx, sender, kind, stack)
       case ClaimStakingRewards => StakingClaim(cfg, s, tx, sender, kind)
       case _ => Err(PolicyMissing))
    case Router(token) => RouterTransferFrom(cfg, s, tx, token, stack)
    case Aspect(hash, bundle) => ExecuteAspect(cfg, s, tx, sender, hash, bundle, stack)
  }

  /** Moves an asset on whichever ledger keeps it; an aspect ledger is called. */
  ghost function TransferAsset(cfg: Config, s: Store, tx: Transaction, ledger: LedgerRef,
                               from: Id, to: Id, asset: Id, amount: nat, stack: seq<Id>): Exec
    decreases Idle(cfg, stack), 1
  {
    match ledger
    case Native(token) => TransferNative(s, token, from, to, asset, amount)
    case AspectToken(contract) =>
      var child := tx.(txHash := tx.txHash + ":asset-transfer:" + contract + ":" + from + ":" + to,
                       sender := from, target := contract, selector := Other(ERC20_TRANSFER),
                       args := [PrincipalArg(to), AmountArg(amount)], signatureOk := true);
      var called :- ExecuteCall(cfg, s, child, from, stack);
      Ok(called.0)
  }

  ghost function RouterTransferFrom(cfg: Config, s: Store, tx: Transaction, token: Id, stack: seq<Id>): Called
    decreases Idle(cfg, stack), 3
  {
    if |tx.args| != 4 then Err(InvalidArguments)
    else ExecuteCall(cfg, s, tx.(target := token, selector := TransferFrom, signatureOk := true), tx.target, stack)
  }

  // ------------------------------------------------------------------------ pools

  ghost predicate LpBalanced(m: Storage, pool: Id) {
    Total(m, LpBalancesOf(pool)) == Get(m, LpSupply(pool)) <= U128_MAX
  }

  ghost function PoolAddLiquidity(cfg: Config, s: Store, tx: Transaction, sender: Id, kind: Kind,
                                  stack: seq<Id>): Called
    requires kind.AmmPool?
    decreases Idle(cfg, stack), 3
  {
    if !(|tx.args| == 2 && tx.args[0].AmountArg? && tx.args[1].AmountArg?) then Err(InvalidArguments)
    else
      var pool, a, b, amountA, amountB := tx.target, kind.assetA, kind.assetB, tx.args[0].amount, tx.args[1].amount;
      if amountA == 0 || amountB == 0 then Err(InvalidArguments)
      else
        var minted :- Add(amountA, amountB);
        var ledgerA :- ResolveLedger(cfg, s, a);
        var ledgerB :- ResolveLedger(cfg, s, b);
        var frame := Frame(pool, {Reserve(pool, a), Reserve(pool, b), LpSupply(pool), LpBalance(pool, sender)});
        var reserveA, reserveB := Get(s.storage, Reserve(pool, a)), Get(s.storage, Reserve(pool, b));
        var supply, held := Get(s.storage, LpSupply(pool)), Get(s.storage, LpBalance(pool, sender));
        var s1 :- TransferAsset(cfg, s, tx, ledgerA, sender, pool, a, amountA, stack);
        var s2 :- TransferAsset(cfg, s1, tx, ledgerB, sender, pool, b, amountB, stack);
        var newA :- Add(reserveA, amountA);
        var s3 :- Write(s2, frame, Reserve(pool, a), newA);
        var newB :- Add(reserveB, amountB);
        var s4 :- Write(s3, frame, Reserve(pool, b), newB);
        SettleLp(s4, frame, pool, sender, supply, held, minted, tx.txHash)
  }

  /** Records the liquidity tokens minted for a provider. */
  ghost function SettleLp(s: Store, frame: Frame, pool: Id, provider: Id, supply: nat, held: nat, minted: nat,
                          txHash: string): Called {
    var newSupply :- Add(supply, minted);
    var s1 :- Write(s, frame, LpSupply(pool), newSupply);
    var newHeld :- Add(held, minted);
    var s2 :- Write(s1, frame, LpBalance(pool, provider), newHeld);
    if !LpBalanced(s2.storage, pool) then Err(InvariantViolation)
    else Ok((Emit(s2, pool, txHash, Notice("liquidity")), UIntRet(minted)))
  }

  ghost function PoolSwap(cfg: Config, s: Store, tx: Transaction, sender: Id, kind: Kind, stack: seq<Id>): Called
    requires kind.AmmPool?
    decreases Idle(cfg, stack), 3
  {
    if !(|tx.args| == 3 && tx.args[0].AssetArg? && tx.args[1].AmountArg? && tx.args[2].AmountArg?) then
      Err(InvalidArguments)
    else
      var pool, input, amountIn := tx.target, tx.args[0].id, tx.args[1].amount;
      if amountIn == 0 then Err(InvalidArguments)
      else if input != kind.assetA && input != kind.assetB then Err(InvalidPoolAsset)
      else
        var output := if input == kind.assetA then kind.assetB else kind.assetA;
        var inLedger :- ResolveLedger(cfg, s, input);
        var outLedger :- ResolveLedger(cfg, s, output);
        var frame := Frame(pool, {Reserve(pool, input), Reserve(pool, output), AmmFeeCollected(pool, input)});
        var reserveIn, reserveOut := Get(s.storage, Reserve(pool, input)), Get(s.storage, Reserve(pool, output));
        var quote :- Quote(reserveIn, reserveOut, amountIn, kind.feeBps);
        var out, fee := quote.0, quote.1;
        if out < tx.args[2].amount then Err(SlippageExceeded)
        else
          var s1 :- TransferAsset(cfg, s, tx, inLedger, sender, pool, input, amountIn, stack);
          var s2 :- TransferAsset(cfg, s1, tx, outLedger, pool, sender, output, out, stack);
          var newIn :- Add(reserveIn, amountIn);
          SettleSwap(s2, frame, pool, input, output, newIn, SaturatingSub(reserveOut, out), fee, out, tx.txHash)
  }

  /** Writes the reserves and the fee of a swap back. */
  ghost function SettleSwap(s: Store, frame: Frame, pool: Id, input: Id, output: Id, newIn: nat, newOut: nat,
                            fee: nat, out: nat,
                            txHash: string): Called {
    var feeKey := AmmFeeCollected(pool, input);
    var s1 :- Write(s, frame, Reserve(pool, input), newIn);
    var s2 :- if fee == 0 then Ok(s1) else (
      var collected :- Add(Get(s1.storage, feeKey), fee);
      Write(s1, frame, feeKey, collected));
    var s3 :- Write(s2, frame, Reserve(pool, output), newOut);
    if !LpBalanced(s3.storage, pool) then Err(InvariantViolation)
    else Ok((Emit(s3, pool, txHash, Notice("swap")), UIntRet(out)))
  }

  // ----------------------------------------------------------------------- bridge

  ghost function BridgeQueue(cfg: Config, s: Store, tx: Transaction, sender: Id, stack: seq<Id>): Called
    decreases Idle(cfg, stack), 3
  {
    if !(|tx.args| == 6 && tx.args[0].TextArg? && tx.args[1].TextArg? && tx.args[2].TextArg? && tx.args[3].PrincipalArg?
         && tx.args[4].AssetArg? && tx.args[5].AmountArg?) then Err(InvalidArguments)
    else
      var id, asset, amount := tx.args[2].text, tx.args[4].id, tx.args[5].amount;
      if amount == 0 then Err(InvalidArguments)
      else if id in s.outboundIds then Err(OutboundMessageReplay)
      else
        var ledger :- ResolveLedger(cfg, s, asset);
        var message := Message(cfg.chainId, tx.target, cfg.height, tx.args[0].text, tx.args[1].text, id,
                               tx.args[3].id, asset, amount);
        var s1 :- TransferAsset(cfg, s, tx, ledger, sender, tx.target, asset, amount, stack);
        var s2 := s1.(outboundIds := s1.outboundIds + {id}, outbox := s1.outbox + [message]);
        Ok((Emit(s2, tx.target, tx.txHash, Notice("queued")), UnitRet))
  }

  ghost function BridgeRedeem(cfg: Config, s: Store, tx: Transaction, sender: Id, source: Id): Called {
    if !(|tx.args| == 5 && tx.args[0].TextArg? && tx.args[1].PrincipalArg? && tx.args[2].AssetArg?
         && tx.args[3].AmountArg?
         && tx.args[4].CertificateArg?) then Err(InvalidArguments)
    else
      var id, recipient, asset, amount := tx.args[0].text, tx.args[1].id, tx.args[2].id, tx.args[3].amount;
      if amount == 0 then Err(InvalidArguments)
      else if !BridgeCertified(cfg, tx.args[4].text, source, tx.target, id, recipient, asset, amount) then
        Err(InvalidBridgeMessage)
      else
        var consumed := BridgeMessageConsumed(tx.target, id);
        if Get(s.storage, consumed) != 0 then Err(BridgeMessageReplay)
        else
          var ledger :- ResolveLedger(cfg, s, asset);
          if ledger.AspectToken? then Err(InvalidBridgeMessage)
          else
            var s1 :- MintNative(s, ledger.token, recipient, asset, amount);
            var s2 :- Write(s1, Frame(tx.target, {consumed}), consumed, 1);
            Ok((Emit(s2, tx.target, tx.txHash, BridgeMessageRedeemed(id, recipient, asset, amount)), UnitRet))
  }

  // ---------------------------------------------------------------------- lending

  ghost function VaultDeposit(cfg: Config, s: Store, tx: Transaction, kind: Kind, stack: seq<Id>): Called
    requires kind.LendingVault?
    decreases Idle(cfg, stack), 3
  {
    if !(|tx.args| == 2 && tx.args[0].AssetArg? && tx.args[1].AmountArg?) then Err(InvalidArguments)
    else
      var vault, borrower, asset, amount := tx.target, tx.sender, tx.args[0].id, tx.args[1].amount;
      if asset != kind.collateralAsset then Err(InvalidPoolAsset)
      else if amount == 0 then Err(InvalidArguments)
      else
        var ledger :- ResolveLedger(cfg, s, asset);
        var key := Collateral(vault, borrower, asset);
        var current := Get(s.storage, key);
        var s1 :- TransferAsset(cfg, s, tx, ledger, borrower, vault, asset, amount, stack);
        var next :- Add(current, amount);
        var s2 :- Write(s1, Frame(vault, {key}), key, next);
        Ok((Emit(s2, vault, tx.txHash, Notice("deposit")), UnitRet))
  }

  function FreshPrice(cfg: Config, m: Storage, kind: Kind): Result<nat, Error>
    requires kind.LendingVault?
  {
    var recorded := Get(m, OracleTimestamp(kind.oracle, kind.collateralAsset));
    var timestamp := if recorded > U64_MAX then 0 else recorded;
    var price := Get(m, OraclePrice(kind.oracle, kind.collateralAsset));
    if SaturatingAdd64(timestamp, kind.maxOracleAge) < cfg.height || price == 0 then Err(StaleOraclePrice)
    else Ok(price)
  }

  /** Adds the interest since the last accrual to a debt. */
  function AccrueDebt(cfg: Config, s: Store, frame: Frame, vault: Id, borrower: Id,
                      kind: Kind): Result<(Store, nat), Error>
    requires kind.LendingVault?
  {
    var debtKey, heightKey := Debt(vault, borrower, kind.debtAsset),
      DebtLastAccrualHeight(vault, borrower, kind.debtAsset);
    var current, last := Get(s.storage, debtKey), Get(s.storage, heightKey);
    if last > U64_MAX then Err(Overflow)
    else
      var perBlock :- Mul(current, kind.interestBps);
      var scaled :- Mul(perBlock, SaturatingSub(cfg.height, last));
      var next :- Add(current, scaled / BPS);
      var s1 :- if next == current then Ok(s) else Write(s, frame, debtKey, next);
      var s2 :- Write(s1, frame, heightKey, cfg.height);
      Ok((s2, next))
  }

  ghost function VaultBorrow(cfg: Config, s: Store, tx: Transaction, sender: Id, kind: Kind, stack: seq<Id>): Called
    requires kind.LendingVault?
    decreases Idle(cfg, stack), 3
  {
    if !(|tx.args| == 2 && tx.args[0].AssetArg? && tx.args[1].AmountArg?) then Err(InvalidArguments)
    else
      var vault, amount := tx.target, tx.args[1].amount;
      if tx.args[0].id != kind.debtAsset then Err(InvalidPoolAsset)
      else if amount == 0 then Err(InvalidArguments)
      else
        var price :- FreshPrice(cfg, s.storage, kind);
        var collateral := Get(s.storage, Collateral(vault, sender, kind.collateralAsset));
        var debtKey := Debt(vault, sender, kind.debtAsset);
        var frame := Frame(vault, {debtKey, DebtLastAccrualHeight(vault, sender, kind.debtAsset)});
        var accrued :- AccrueDebt(cfg, s, frame, vault, sender, kind);
        var next :- Add(accrued.1, amount);
        var limit :- DebtLimit(collateral, price, kind.ltvBps);
        if next > limit then Err(InsufficientCollateral)
        else
          var ledger :- ResolveLedger(cfg, accrued.0, kind.debtAsset);
          var s2 :- TransferAsset(cfg, accrued.0, tx, ledger, vault, sender, kind.debtAsset, amount, stack);
          var s3 :- Write(s2, frame, debtKey, next);
          Ok((Emit(s3, vault, tx.txHash, Notice("borrow")), UnitRet))
  }

  /** `lending_invariants_hold`: every open debt is within its collateral's limit at the recorded price. */
  ghost predicate DebtsCovered(m: Storage, vault: Id, kind: Kind)
    requires kind.LendingVault?
  {
    forall k | k in m && k.Debt? && k.contract == vault && k.asset == kind.debtAsset && m[k] != 0 ::
      DebtWithin(m, vault, kind, k.account, kind.ltvBps)
  }

  /** The account's debt is within `bps` of its collateral's value. */
  predicate DebtWithin(m: Storage, vault: Id, kind: Kind, account: Id, bps: nat)
    requires kind.LendingVault?
  {
    var price := Get(m, OraclePrice(kind.oracle, kind.collateralAsset));
    var collateral := Get(m, Collateral(vault, account, kind.collateralAsset));
    && price != 0
    && DebtLimit(collateral, price, bps).Ok?
    && Get(m, Debt(vault, account, kind.debtAsset)) <= DebtLimit(collateral, price, bps).value
  }

  /** How a liquidation splits a debt and its collateral. */
  datatype Liquidation = Liquidation(repaid: nat, seized: nat, debtAfter: nat, collateralAfter: nat, badDebt: nat)

  function PlanLiquidation(debt: nat, collateral: nat, price: nat, repay: nat, ltvBps: nat,
                           thresholdBps: nat): Result<Liquidation, Error> {
    if debt == 0 then Err(InsufficientCollateral)
    else
      var threshold :- DebtLimit(collateral, price, thresholdBps);
      if debt <= threshold then Err(InsufficientCollateral)
      else
        var repaid := if repay < debt then repay else debt;
        var wanted :- DivCeil(repaid, price);
        var seized := if wanted < collateral then wanted else collateral;
        var left, owed := SaturatingSub(collateral, seized), SaturatingSub(debt, repaid);
        if left == 0 && owed != 0 then Ok(Liquidation(repaid, seized, 0, left, owed))
        else
          var limit :- DebtLimit(left, price, ltvBps);
          if owed > limit then Err(InsufficientCollateral) else Ok(Liquidation(repaid, seized, owed, left, 0))
  }

  ghost function VaultLiquidate(cfg: Config, s: Store, tx: Transaction, sender: Id, kind: Kind, stack: seq<Id>): Called
    requires kind.LendingVault?
    decreases Idle(cfg, stack), 3
  {
    if !(|tx.args| == 3 && tx.args[0].PrincipalArg? && tx.args[1].AssetArg? && tx.args[2].AmountArg?) then
      Err(InvalidArguments)
    else
      var vault, borrower, repay := tx.target, tx.args[0].id, tx.args[2].amount;
      if tx.args[1].id != kind.debtAsset || repay == 0 then Err(InvalidArguments)
      else
        var price :- FreshPrice(cfg, s.storage, kind);
        var debtKey, collateralKey := Debt(vault, borrower, kind.debtAsset),
          Collateral(vault, borrower, kind.collateralAsset);
        var badKey := BadDebt(vault, kind.debtAsset);
        var frame := Frame(vault,
                           {debtKey, DebtLastAccrualHeight(vault, borrower, kind.debtAsset), collateralKey, badKey});
        var accrued :- AccrueDebt(cfg, s, frame, vault, borrower, kind);
        var plan :- PlanLiquidation(accrued.1, Get(accrued.0.storage, collateralKey), price, repay, kind.ltvBps,
                                    kind.thresholdBps);
        var s1 :- RecordBadDebt(accrued.0, frame, badKey, plan.badDebt);
        var debtLedger :- ResolveLedger(cfg, s1, kind.debtAsset);
        var collateralLedger :- ResolveLedger(cfg, s1, kind.collateralAsset);
        var s2 :- TransferAsset(cfg, s1, tx, debtLedger, sender, vault, kind.debtAsset, plan.repaid, stack);
        var s3 :- if plan.seized == 0 then Ok(s2)
                  else TransferAsset(cfg, s2, tx, collateralLedger, vault, sender, kind.collateralAsset, plan.seized,
                                     stack);
        SettleLiquidation(s3, frame, vault, borrower, kind, plan, tx.txHash)
  }

  function RecordBadDebt(s: Store, frame: Frame, key: StateKey, badDebt: nat): Exec {
    if badDebt == 0 then Ok(s)
    else
      var next :- Add(Get(s.storage, key), badDebt);
      Write(s, frame, key, next)
  }

  ghost function SettleLiquidation(s: Store, frame: Frame, vault: Id, borrower: Id, kind: Kind, plan: Liquidation,
                                   txHash: string): Called
    requires kind.LendingVault?
  {
    var s1 :- Write(s, frame, Debt(vault, borrower, kind.debtAsset), plan.debtAfter);
    var s2 :- Write(s1, frame, Collateral(vault, borrower, kind.collateralAsset), plan.collateralAfter);
    if !DebtsCovered(s2.storage, vault, kind) then Err(InvariantViolation)
    else Ok((Emit(s2, vault, txHash, Notice("liquidated")), UIntRet(plan.repaid)))
  }

  // ---------------------------------------------------------------------- staking

  ghost predicate StakesBalanced(m: Storage, c: Id, asset: Id) {
    Total(m, StakesOf(c, asset)) == Get(m, TotalStaked(c, asset)) <= U128_MAX
  }

  ghost predicate PendingBalanced(m: Storage, c: Id, asset: Id) {
    Total(m, PendingOf(c, asset)) == Get(m, TotalPendingUnbond(c, asset)) <= U128_MAX
  }

  /** Rewards for the blocks since the last accrual. */
  function RewardsDue(cfg: Config, m: Storage, c: Id, staker: Id, asset: Id, rate: nat): Result<nat, Error> {
    var last := Get(m, StakingLastRewardHeight(c, staker, asset));
    if last > U64_MAX then Err(Overflow)
    else
      var perBlock :- Mul(Get(m, StakeBalance(c, staker, asset)), rate);
      Mul(perBlock, SaturatingSub(cfg.height, last))
  }

  /** Credits the rewards due and moves the accrual height up to the present. */
  function AccrueRewards(cfg: Config, s: Store, frame: Frame, c: Id, staker: Id, asset: Id, rate: nat): Exec {
    var rewardKey := StakingRewardBalance(c, staker, asset);
    var due :- RewardsDue(cfg, s.storage, c, staker, asset, rate);
    var s1 :- if due == 0 then Ok(s) else (
      var next :- Add(Get(s.storage, rewardKey), due);
      Write(s, frame, rewardKey, next));
    Write(s1, frame, StakingLastRewardHeight(c, staker, asset), cfg.height)
  }

  function StakingFrame(c: Id, staker: Id, asset: Id): Frame {
    Frame(c, {StakeBalance(c, staker, asset), TotalStaked(c, asset), StakingPenaltyCollected(c, asset),
              PendingUnbond(c, staker, asset), TotalPendingUnbond(c, asset), UnbondReadyHeight(c, staker, asset),
              StakingRewardBalance(c, staker, asset), StakingLastRewardHeight(c, staker, asset)})
  }

  ghost function StakingStake(cfg: Config, s: Store, tx: Transaction, staker: Id, kind: Kind, stack: seq<Id>): Called
    requires kind.Staking?
    decreases Idle(cfg, stack), 3
  {
    if !(|tx.args| == 2 && tx.args[0].AssetArg? && tx.args[1].AmountArg?) then Err(InvalidArguments)
    else
      var c, asset, amount := tx.target, tx.args[0].id, tx.args[1].amount;
      if asset != kind.stakingAsset then Err(InvalidPoolAsset)
      else if amount == 0 then Err(InvalidArguments)
      else
        var frame := StakingFrame(c, staker, asset);
        var s1 :- AccrueRewards(cfg, s, frame, c, staker, asset, kind.rewardPerBlock);
        var stake, total := Get(s1.storage, StakeBalance(c, staker, asset)), Get(s1.storage, TotalStaked(c, asset));
        var ledger :- ResolveLedger(cfg, s1, asset);
        var s2 :- TransferAsset(cfg, s1, tx, ledger, staker, c, asset, amount, stack);
        SettleStake(s2, frame, c, staker, asset, stake, total, amount, tx.txHash)
  }

  ghost function SettleStake(s: Store, frame: Frame, c: Id, staker: Id, asset: Id, stake: nat, total: nat,
                             amount: nat, txHash: string): Called {
    var newStake :- Add(stake, amount);
    var s1 :- Write(s, frame, StakeBalance(c, staker, asset), newStake);
    var newTotal :- Add(total, amount);
    var s2 :- Write(s1, frame, TotalStaked(c, asset), newTotal);
    if !StakesBalanced(s2.storage, c, asset) || !PendingBalanced(s2.storage, c, asset) then Err(InvariantViolation)
    else Ok((Emit(s2, c, txHash, Notice("staked")), UnitRet))
  }

  /** The active stake covers the amount. */
  function CheckStake(s: Store, c: Id, staker: Id, asset: Id, amount: nat): Result<nat, Error> {
    if Get(s.storage, StakeBalance(c, staker, asset)) < amount then Err(InsufficientStake)
    else if Get(s.storage, TotalStaked(c, asset)) < amount then Err(InvariantViolation)
    else Ok(amount)
  }

  /** Takes an amount out of the active stake, keeping the penalty. */
  function Withdraw(s: Store, frame: Frame, c: Id, staker: Id, asset: Id, amount: nat, penalty: nat): Exec
    requires CheckStake(s, c, staker, asset, amount).Ok?
  {
    var stake, total := Get(s.storage, StakeBalance(c, staker, asset)), Get(s.storage, TotalStaked(c, asset));
    var s1 :- Write(s, frame, StakeBalance(c, staker, asset), stake - amount);
    var s2 :- Write(s1, frame, TotalStaked(c, asset), total - amount);
    if penalty == 0 then Ok(s2)
    else
      var collected :- Add(Get(s2.storage, StakingPenaltyCollected(c, asset)), penalty);
      Write(s2, frame, StakingPenaltyCollected(c, asset), collected)
  }

  ghost function StakingUnstake(cfg: Config, s: Store, tx: Transaction, staker: Id, kind: Kind, stack: seq<Id>): Called
    requires kind.Staking?
    decreases Idle(cfg, stack), 3
  {
    if kind.unbondingDelay > 0 then Err(TimelockNotReady)
    else if !(|tx.args| == 2 && tx.args[0].AssetArg? && tx.args[1].AmountArg?) then Err(InvalidArguments)
    else
      var c, asset, amount := tx.target, tx.args[0].id, tx.args[1].amount;
      if asset != kind.stakingAsset then Err(InvalidPoolAsset)
      else if amount == 0 then Err(InvalidArguments)
      else
        var frame := StakingFrame(c, staker, asset);
        var s1 :- AccrueRewards(cfg, s, frame, c, staker, asset, kind.rewardPerBlock);
        var covered :- CheckStake(s1, c, staker, asset, amount);
        var split :- Penalty(amount, kind.penaltyBps);
        var ledger :- ResolveLedger(cfg, s1, asset);
        var s2 :- Withdraw(s1, frame, c, staker, asset, amount, split.1);
        var s3 :- if split.0 == 0 then Ok(s2) else TransferAsset(cfg, s2, tx, ledger, c, staker, asset, split.0, stack);
        if !StakesBalanced(s3.storage, c, asset) || !PendingBalanced(s3.storage, c, asset) then Err(InvariantViolation)
        else Ok((Emit(s3, c, tx.txHash, Notice("unstaked")), UnitRet))
  }

  ghost function StakingRequest(cfg: Config, s: Store, tx: Transaction, staker: Id, kind: Kind): Called
    requires kind.Staking?
  {
    if !(|tx.args| == 2 && tx.args[0].AssetArg? && tx.args[1].AmountArg?) then Err(InvalidArguments)
    else
      var c, asset, amount := tx.target, tx.args[0].id, tx.args[1].amount;
      if asset != kind.stakingAsset then Err(InvalidPoolAsset)
      else if amount == 0 then Err(InvalidArguments)
      else
        var frame := StakingFrame(c, staker, asset);
        var s1 :- AccrueRewards(cfg, s, frame, c, staker, asset, kind.rewardPerBlock);
        var covered :- CheckStake(s1, c, staker, asset, amount);
        if cfg.height + kind.unbondingDelay > U64_MAX then Err(Overflow)
        else
          var split :- Penalty(amount, kind.penaltyBps);
          var s2 :- Withdraw(s1, frame, c, staker, asset, amount, split.1);
          SettleRequest(s2, frame, c, staker, asset, split.0, cfg.height + kind.unbondingDelay, tx.txHash)
  }

  /** Parks a withdrawn amount until it is ready. */
  ghost function SettleRequest(s: Store, frame: Frame, c: Id, staker: Id, asset: Id, released: nat, ready: nat,
                               txHash: string): Called {
    var pending :- Add(Get(s.storage, PendingUnbond(c, staker, asset)), released);
    var s1 :- Write(s, frame, PendingUnbond(c, staker, asset), pending);
    var totalPending :- Add(Get(s1.storage, TotalPendingUnbond(c, asset)), released);
    var s2 :- Write(s1, frame, TotalPendingUnbond(c, asset), totalPending);
    var s3 :- Write(s2, frame, UnbondReadyHeight(c, staker, asset), ready);
    if !StakesBalanced(s3.storage, c, asset) || !PendingBalanced(s3.storage, c, asset) then Err(InvariantViolation)
    else Ok((Emit(s3, c, txHash, Notice("requested")), UnitRet))
  }

  ghost function StakingComplete(cfg: Config, s: Store, tx: Transaction, staker: Id, kind: Kind, stack: seq<Id>): Called
    requires kind.Staking?
    decreases Idle(cfg, stack), 3
  {
    if !(|tx.args| == 2 && tx.args[0].AssetArg? && tx.args[1].AmountArg?) then Err(InvalidArguments)
    else
      var c, asset, amount := tx.target, tx.args[0].id, tx.args[1].amount;
      if asset != kind.stakingAsset then Err(InvalidPoolAsset)
      else if amount == 0 then Err(InvalidArguments)
      else
        var pendingKey, totalKey := PendingUnbond(c, staker, asset), TotalPendingUnbond(c, asset);
        var ready := Get(s.storage, UnbondReadyHeight(c, staker, asset));
        var pending, total := Get(s.storage, pendingKey), Get(s.storage, totalKey);
        if ready > U64_MAX then Err(Overflow)
        else if cfg.height < ready then Err(TimelockNotReady)
        else if pending < amount then Err(InsufficientStake)
        else if total < amount then Err(InvariantViolation)
        else
          var frame := Frame(c, {pendingKey, totalKey});
          var s1 :- Write(s, frame, pendingKey, pending - amount);
          var s2 :- Write(s1, frame, totalKey, total - amount);
          var ledger :- ResolveLedger(cfg, s2, asset);
          var s3 :- TransferAsset(cfg, s2, tx, ledger, c, staker, asset, amount, stack);
          if !PendingBalanced(s3.storage, c, asset) then Err(InvariantViolation)
          else Ok((Emit(s3, c, tx.txHash, Notice("completed")), UnitRet))
  }

  ghost function StakingClaim(cfg: Config, s: Store, tx: Transaction, staker: Id, kind: Kind): Called
    requires kind.Staking?
  {
    if !(|tx.args| == 1 && tx.args[0].AssetArg?) then Err(InvalidArguments)
    else
      var c, asset := tx.target, tx.args[0].id;
      if asset != kind.stakingAsset then Err(InvalidPoolAsset)
      else
        var rewardKey := StakingRewardBalance(c, staker, asset);
        var frame := StakingFrame(c, staker, asset);
        var s1 :- AccrueRewards(cfg, s, frame, c, staker, asset, kind.rewardPerBlock);
        var claimed := Get(s1.storage, rewardKey);
        var s2 :- Write(s1, frame, rewardKey, 0);
        var s3 :- if claimed == 0 then Ok(s2) else (
          var ledger :- ResolveLedger(cfg, s2, asset);
          if ledger.AspectToken? then Err(InvalidPoolAsset) else MintNative(s2, ledger.token, staker, asset, claimed));
        Ok((Emit(s3, c, tx.txHash, StakingRewardsClaimed(staker, asset, claimed)), UIntRet(claimed)))
  }

  // ---------------------------------------------------------------------- aspects

  /** Keys of a contract's aspect states that belong to the bundle. */
  ghost function OwnEntries(m: Module, storage: Storage, contract: Id, bundle: string): set<StateKey> {
    set k | k in storage && k.AspectState? && k.contract == contract && InClosure(m, bundle, k.aspect)
  }

  ghost function EntryAmong(ks: set<StateKey>, contract: Id, state: string, key: seq<string>): StateKey
    requires exists k :: k in ks && k.AspectState? && k.contract == contract && k.state == state && k.key == key
    ensures EntryAmong(ks, contract, state, key) in ks
  {
    var k :| k in ks && k.AspectState? && k.contract == contract && k.state == state && k.key == key; k
  }

  /** The stored entries of a contract's own aspect states, by state name and key. */
  ghost function SnapshotOf(m: Module, storage: Storage, contract: Id,
                            bundle: string): map<(string, seq<string>), Value> {
    var ks := OwnEntries(m, storage, contract, bundle);
    var ps := set k | k in ks :: (k.state, k.key);
    map p | p in ps :: Amount(storage[EntryAmong(ks, contract, p.0, p.1)])
  }

  /** The aspect states of every contract. */
  ghost function ForeignOf(storage: Storage): map<(string, string, seq<string>), Value> {
    var ks := set k | k in storage && k.AspectState?;
    var ps := set k | k in ks :: (k.contract, k.state, k.key);
    map p | p in ps :: Amount(storage[EntryAmong(ks, p.0, p.1, p.2)])
  }

  /** The aspects of the bundle that declare the state. */
  ghost function OwnersOf(m: Module, bundle: string, state: string): set<string> {
    set p | p in m.storage && p.1 == state && InClosure(m, bundle, p.0) :: p.0
  }

  ghost function AspectKey(m: Module, contract: Id, bundle: string, state: string,
                           key: seq<string>): Result<StateKey, Error> {
    var owners := OwnersOf(m, bundle, state);
    if owners == {} then Err(WriteScopeViolation)
    else if |owners| > 1 then Err(InvalidArguments)
    else
      var owner :| owner in owners;
      Ok(AspectState(contract, owner, state, key))
  }

  ghost function AspectScope(m: Module, contract: Id, bundle: string): set<StateKey> {
    set p | p in m.storage && InClosure(m, bundle, p.0) :: AspectState(contract, p.0, p.1, [])
  }

  function ValueOf(arg: Argument): Value {
    match arg
    case AmountArg(n) => Amount(n)
    case PrincipalArg(t) => Name(t)
    case AssetArg(t) => Name(t)
    case TextArg(t) => Name(t)
    case CertificateArg(t) => Name(t)
  }

  function Stored(v: Value): Result<nat, Error> {
    match v
    case Amount(n) => Ok(n)
    case Bool(b) => Ok(if b then 1 else 0)
    case _ => Err(InvalidArguments)
  }

  function Allows(patterns: set<Pattern>, contract: Id, name: string): bool {
    exists p | p in patterns :: p.name == name && (p.target.AnyContract? || p.target.contract == contract)
  }

  function NativeKinds(selector: Method): Option<seq<ArgKind>> {
    match selector
    case Transfer | Approve => Some([PrincipalKind, AssetKind, AmountKind])
    case TransferFrom | RouteTransferFrom => Some([PrincipalKind, PrincipalKind, AssetKind, AmountKind])
    case Permit => Some([PrincipalKind, PrincipalKind, AssetKind, AmountKind, CertificateKind])
    case AddLiquidity => Some([AmountKind, AmountKind])
    case Swap | SubmitPrice => Some([AssetKind, AmountKind, AmountKind])
    case QueueBridgeMessage => Some([TextKind, TextKind, TextKind, PrincipalKind, AssetKind, AmountKind])
    case RedeemBridgeMessage => Some([TextKind, PrincipalKind, AssetKind, AmountKind, CertificateKind])
    case DepositCollateral | Borrow | Stake | Unstake | RequestUnstake | CompleteUnstake =>
      Some([AssetKind, AmountKind])
    case Liquidate => Some([PrincipalKind, AssetKind, AmountKind])
    case ClaimStakingRewards => Some([AssetKind])
    case PauseContract | UnpauseContract => Some([])
    case ExecuteUpgrade | ExecutePolicyUpdate | RegisterAccountKey | RevokeAccountKey => Some([TextKind])
    case ScheduleUpgrade => Some([TextKind, TextKind])
    case SchedulePolicyUpdate => Some([TextKind, TextKind, TextKind])
    case DeployToken => Some([TextKind, AssetKind, PrincipalKind, AmountKind])
    case DeployAmmPool => Some([TextKind, AssetKind, AssetKind])
    case SubmitAspectModule | DeployAspectContract | Other(_) => None
  }

  function ArgumentOf(kind: ArgKind, v: Value): Result<Argument, Error> {
    if kind.AmountKind? then (if v.Amount? then Ok(AmountArg(v.amount)) else Err(InvalidArguments))
    else if !v.Name? || v.text == "" then Err(InvalidArguments)
    else match kind
      case PrincipalKind => Ok(PrincipalArg(v.text))
      case AssetKind => Ok(AssetArg(v.text))
      case TextKind => Ok(TextArg(v.text))
      case _ => Ok(CertificateArg(v.text))
  }

  function ArgumentsOf(kinds: seq<ArgKind>, vs: seq<Value>): Result<seq<Argument>, Error> {
    if |kinds| != |vs| then Err(InvalidArguments)
    else if kinds == [] then Ok([])
    else
      var first :- ArgumentOf(kinds[0], vs[0]);
      var rest :- ArgumentsOf(kinds[1..], vs[1..]);
      Ok([first] + rest)
  }

  /** Method and arguments with which an aspect's call reaches its target. */
  function HostCall(cfg: Config, target: Kind, name: string, vs: seq<Value>): Result<(Method, seq<Argument>), Error> {
    if target.Aspect? then
      if target.moduleHash !in cfg.modules
        || (target.bundle, name) !in cfg.modules[target.moduleHash].abi then Err(InvalidArguments)
      else
        var args :- ArgumentsOf(cfg.modules[target.moduleHash].abi[(target.bundle, name)], vs);
        Ok((Other(name), args))
    else if name !in cfg.names || NativeKinds(cfg.names[name]).None? then Err(InvalidArguments)
    else
      var args :- ArgumentsOf(NativeKinds(cfg.names[name]).value, vs);
      Ok((cfg.names[name], args))
  }

  /** The aspect method being replayed. */
  datatype Host = Host(ir: Module, bundle: string, policy: Policy, frame: Frame)

  ghost function ApplyOp(cfg: Config, s: Store, tx: Transaction, host: Host, op: HostOp, stack: seq<Id>): Exec
    decreases Idle(cfg, stack), 1
  {
    match op
    case GetState(_, _) => Ok(s)
    case GetContractState(contract, state, _) =>
      if Allows(host.policy.stateReads, contract, state) then Ok(s) else Err(UnauthorizedContractStateRead)
    case SetState(state, key, value) =>
      var k :- AspectKey(host.ir, tx.target, host.bundle, state, key);
      var v :- Stored(value);
      Write(s, host.frame, k, v)
    case EmitText(_) => Ok(Emit(s, tx.target, tx.txHash, Notice("aspect")))
    case GetRegistry(_) => Err(InvalidArguments)
    case SetRegistry(_, _) => Err(InvalidArguments)
    case ConsumeRegistry(_, _) => Err(InvalidArguments)
    case Call(contract, name, args) =>
      if contract == "" then Err(InvalidArguments)
      else if !Allows(host.policy.calls, contract, name) then Err(UnauthorizedContractCall)
      else if contract !in cfg.contracts then Err(ContractNotFound)
      else
        var call :- HostCall(cfg, cfg.contracts[contract], name, args);
        var called :- ExecuteCall(cfg, s, tx.(target := contract, selector := call.0, args := call.1),
                                  host.frame.contract, stack);
        Ok(called.0)
    case VerifyPermit(owner, spender, asset, amount, certificate) =>
      var nonce := PermitNonce(certificate, cfg.chainId, tx.target, owner, spender, asset, amount);
      if nonce.None? then Err(InvalidCertificate)
      else if nonce.value in s.certificates then Err(CertificateReplay)
      else Ok(s.(certificates := s.certificates + {nonce.value}))
    case VerifyBridge(source, id, recipient, asset, amount, certificate) =>
      if BridgeCertified(cfg, certificate, source, tx.target, id, recipient, asset, amount) then Ok(s)
      else Err(InvalidBridgeMessage)
    case AppendOutbox(chain, contract, id, recipient, asset, amount) =>
      if chain == "" || contract == "" || id == "" || recipient == "" || asset == ""
        || amount == 0 then Err(InvalidArguments)
      else if id in s.outboundIds then Err(OutboundMessageReplay)
      else
        var message := Message(cfg.chainId, tx.target, cfg.height, chain, contract, id, recipient, asset, amount);
        Ok(Emit(s.(outboundIds := s.outboundIds + {id}, outbox := s.outbox + [message]), tx.target, tx.txHash,
                Notice("queued")))
  }

  ghost function Replay(cfg: Config, s: Store, tx: Transaction, host: Host, ops: seq<HostOp>, stack: seq<Id>): Exec
    decreases Idle(cfg, stack), 2, |ops|
  {
    if ops == [] then Ok(s)
    else
      var s1 :- ApplyOp(cfg, s, tx, host, ops[0], stack);
      Replay(cfg, s1, tx, host, ops[1..], stack)
  }

  /** An invariant evaluates to True using reads only. */
  ghost predicate InvariantHolds(env: Env, budget: nat, policy: Policy, e: Syntax.Expr) {
    var run := Eval(env, MAX_STACK_DEPTH, budget, map[], e);
    && run.outcome == Ok(Bool(true))
    && forall op | op in run.trace :: op.GetState? || op.GetRegistry?
         || (op.GetContractState? && Allows(policy.stateReads, op.contract, op.state))
  }

  /** Evaluates the projection on a snapshot, then replays its trace against the store. */
  ghost function ExecuteAspect(cfg: Config, s: Store, tx: Transaction, sender: Id, hash: string, bundle: string,
                               stack: seq<Id>): Called
    decreases Idle(cfg, stack), 3
  {
    if !tx.selector.Other? then Err(MethodNotExported)
    else if hash !in cfg.modules then Err(InvalidArguments)
    else
      var m := cfg.modules[hash].ir;
      var method_ := (bundle, tx.selector.name);
      if method_ !in m.policies then Err(PolicyMissing)
      else if !WellReferenced(m, bundle) then Err(InvalidArguments)
      else
        var policy := m.policies[method_];
        var context := Context(tx.sender, sender, tx.target, cfg.height, 0);
        var env := Env(m, context, SnapshotOf(m, s.storage, tx.target, bundle), ForeignOf(s.storage));
        var run := ExecuteProjection(env, tx.budget, method_,
                                     seq(|tx.args|, i requires 0 <= i < |tx.args| => ValueOf(tx.args[i])));
        if run.outcome.Err? then Err(InvalidArguments)
        else
          var host := Host(m, bundle, policy, Frame(tx.target, AspectScope(m, tx.target, bundle)));
          var s1 :- Replay(cfg, s, tx, host, run.trace, stack);
          var after := Env(m, context, SnapshotOf(m, s1.storage, tx.target, bundle), ForeignOf(s1.storage));
          if !(forall e | e in policy.invariants :: InvariantHolds(after, tx.budget, policy, e)) then
            Err(InvariantViolation)
          else if run.outcome.value.Name? then Err(InvalidArguments)
          else if run.outcome.value.Unit? then Ok((s1, UnitRet))
          else
            var n :- Stored(run.outcome.value);
            Ok((s1, UIntRet(n)))
  }
}
