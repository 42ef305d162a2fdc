/**
  The flat machine.  A call tree of any depth changes the store as a sequence of
  atomic steps does: each step reads and writes the store as it is at that moment.
*/
module Steps {
  import opened Common
  import opened Ledger
  import opened Executor

  datatype Step =
    | Move(token: Id, from: Id, to: Id, asset: Id, amount: nat)
    | Own(contract: Id, key: StateKey, value: nat)
    | SwapReserves(pool: Id, input: Id, amountIn: nat, amountOut: nat)
    | AddReserves(pool: Id, amountA: nat, amountB: nat)
    | Accrue(contract: Id, staker: Id)
    | Restake(contract: Id, staker: Id, stake: nat)
    | Park(contract: Id, staker: Id, released: nat)
    | Release(contract: Id, staker: Id, amount: nat)
    | Claim(contract: Id, staker: Id, token: Id, txHash: string)
    | Redeem(contract: Id, token: Id, id: string, recipient: Id, asset: Id, amount: nat, certificate: string,
             txHash: string)
    | Append(message: Message, guarded: bool)
    | Note(contract: Id, txHash: string, name: string)
    | SetGrant(grantKey: GrantKey, grant: Grant)
    | UseCertificate(nonce: string)

  /** Parameters as deployment checks them. */
  ghost predicate WellFormed(cfg: Config) {
    forall c | c in cfg.contracts ::
      match cfg.contracts[c]
      case AmmPool(a, b, fee) => a != b && fee <= BPS
      case LendingVault(collateral, debt, _, ltv, _, _, threshold) => collateral != debt && ltv <= threshold <= BPS
      case Staking(_, _, _, penalty) => penalty <= BPS
      case _ => true
  }

  function Put(s: Store, k: StateKey, v: nat): Store {
    s.(storage := s.storage[k := v])
  }

  /** Keys that only `Own` writes: not ledgers, reserves, stakes, parked amounts, rewards or consumed messages. */
  predicate Plain(k: StateKey) {
    && !k.Balance? && !k.TotalSupply? && !k.Reserve? && !k.StakeBalance? && !k.StakingRewardBalance?
    && !k.StakingLastRewardHeight? && !k.BridgeMessageConsumed? && !k.PendingUnbond? && !k.UnbondReadyHeight?
  }

  predicate IsPool(cfg: Config, c: Id) {
    c in cfg.contracts && cfg.contracts[c].AmmPool?
  }

  predicate IsStaking(cfg: Config, c: Id) {
    c in cfg.contracts && cfg.contracts[c].Staking?
  }

  predicate IsBridge(cfg: Config, c: Id) {
    c in cfg.contracts && cfg.contracts[c].Bridge?
  }

  function OutputOf(kind: Kind, input: Id): Id
    requires kind.AmmPool?
  {
    if input == kind.assetA then kind.assetB else kind.assetA
  }

  /** The contract has queued a message under this id. */
  predicate Queued(s: Store, contract: Id, id: string) {
    exists i | 0 <= i < |s.outbox| :: s.outbox[i].sourceContract == contract && s.outbox[i].id == id
  }

  /** One atomic change of the store; Err when its guard does not hold. */
  ghost function ApplyStep(cfg: Config, s: Store, step: Step): Exec {
    match step
    case Move(token, from, to, asset, amount) => ApplyMove(cfg, s, token, from, to, asset, amount)
    case Own(contract, key, value) =>
      if key.contract == contract && Plain(key) && contract in cfg.contracts then Ok(Put(s, key, value))
      else Err(ContractIsolationViolation)
    case SwapReserves(pool, input, amountIn, amountOut) => ApplySwap(cfg, s, pool, input, amountIn, amountOut)
    case AddReserves(pool, amountA, amountB) => ApplyAdd(cfg, s, pool, amountA, amountB)
    case Accrue(c, staker) => ApplyAccrue(cfg, s, c, staker)
    case Restake(c, staker, stake) => ApplyRestake(cfg, s, c, staker, stake)
    case Park(c, staker, released) => ApplyPark(cfg, s, c, staker, released)
    case Release(c, staker, amount) => ApplyRelease(cfg, s, c, staker, amount)
    case Claim(c, staker, token, txHash) => ApplyClaim(cfg, s, c, staker, token, txHash)
    case Redeem(c, token, id, recipient, asset, amount, certificate, txHash) =>
      ApplyRedeem(cfg, s, c, token, id, recipient, asset, amount, certificate, txHash)
    case Append(message, guarded) =>
      if message.sourceChain != cfg.chainId || message.sourceContract !in cfg.contracts then Err(ContractNotFound)
      else if (guarded && message.id in s.outboundIds) || Queued(s, message.sourceContract, message.id)
      then Err(OutboundMessageReplay)
      else Ok(s.(outboundIds := s.outboundIds + {message.id}, outbox := s.outbox + [message]))
    case Note(contract, txHash, name) =>
      if contract in cfg.contracts then Ok(Emit(s, contract, txHash, Notice(name))) else Err(ContractNotFound)
    case SetGrant(key, grant) => Ok(s.(registry := s.registry[key := grant]))
    case UseCertificate(nonce) =>
      if nonce in s.certificates then Err(CertificateReplay) else Ok(s.(certificates := s.certificates + {nonce}))
  }

  ghost function ApplyMove(cfg: Config, s: Store, token: Id, from: Id, to: Id, asset: Id, amount: nat): Exec {
    if IsToken(cfg, token) then TransferNative(s, token, from, to, asset, amount) else Err(ContractNotFound)
  }

  function ApplyAccrue(cfg: Config, s: Store, c: Id, staker: Id): Exec {
    if !IsStaking(cfg, c) then Err(ContractNotFound)
    else
      var kind := cfg.contracts[c];
      AccrueRewards(cfg, s, StakingFrame(c, staker, kind.stakingAsset), c, staker, kind.stakingAsset,
                    kind.rewardPerBlock)
  }

  /** A stake changes only after its rewards have been accrued at the current height. */
  function ApplyRestake(cfg: Config, s: Store, c: Id, staker: Id, stake: nat): Exec {
    if !IsStaking(cfg, c) then Err(ContractNotFound)
    else if Get(s.storage, StakingLastRewardHeight(c, staker, cfg.contracts[c].stakingAsset)) != cfg.height then
      Err(TimelockNotReady)
    else Ok(Put(s, StakeBalance(c, staker, cfg.contracts[c].stakingAsset), stake))
  }

  /** Parks a withdrawn amount; everything parked waits for the full delay again. */
  function ApplyPark(cfg: Config, s: Store, c: Id, staker: Id, released: nat): Exec {
    if !IsStaking(cfg, c) then Err(ContractNotFound)
    else
      var kind := cfg.contracts[c];
      var pendingKey, readyKey := PendingUnbond(c, staker, kind.stakingAsset),
        UnbondReadyHeight(c, staker, kind.stakingAsset);
      Ok(Put(Put(s, pendingKey, Get(s.storage, pendingKey) + released), readyKey, cfg.height + kind.unbondingDelay))
  }

  /** A parked amount is released only at its height. */
  function ApplyRelease(cfg: Config, s: Store, c: Id, staker: Id, amount: nat): Exec {
    if !IsStaking(cfg, c) then Err(ContractNotFound)
    else
      var asset := cfg.contracts[c].stakingAsset;
      var pending := Get(s.storage, PendingUnbond(c, staker, asset));
      if cfg.height < Get(s.storage, UnbondReadyHeight(c, staker, asset)) then Err(TimelockNotReady)
      else if pending < amount then Err(InsufficientStake)
      else Ok(Put(s, PendingUnbond(c, staker, asset), pending - amount))
  }

  ghost function ApplyClaim(cfg: Config, s: Store, c: Id, staker: Id, token: Id, txHash: string): Exec {
    if !IsStaking(cfg, c) then Err(ContractNotFound)
    else
      var asset := cfg.contracts[c].stakingAsset;
      var claimed := Get(s.storage, StakingRewardBalance(c, staker, asset));
      var s1 := Put(s, StakingRewardBalance(c, staker, asset), 0);
      if claimed != 0 && token !in NativeLedgers(cfg, s1.storage, asset) then Err(ContractNotFound)
      else
        var s2 :- if claimed == 0 then Ok(s1) else MintNative(s1, token, staker, asset, claimed);
        Ok(Emit(s2, c, txHash, StakingRewardsClaimed(staker, asset, claimed)))
  }

  ghost function ApplyRedeem(cfg: Config, s: Store, c: Id, token: Id, id: string, recipient: Id, asset: Id, amount: nat,
                             certificate: string, txHash: string): Exec {
    if !IsBridge(cfg, c) || token !in NativeLedgers(cfg, s.storage, asset) then Err(ContractNotFound)
    else if !BridgeCertified(cfg, certificate, cfg.contracts[c].sourceChain, c, id, recipient, asset, amount) then
      Err(InvalidBridgeMessage)
    else if Get(s.storage, BridgeMessageConsumed(c, id)) != 0 then Err(BridgeMessageReplay)
    else
      var s1 :- MintNative(s, token, recipient, asset, amount);
      Ok(Emit(Put(s1, BridgeMessageConsumed(c, id), 1), c, txHash, BridgeMessageRedeemed(id, recipient, asset, amount)))
  }

  function ApplySwap(cfg: Config, s: Store, pool: Id, input: Id, amountIn: nat, amountOut: nat): Exec {
    if !IsPool(cfg, pool) then Err(ContractNotFound)
    else
      var kind := cfg.contracts[pool];
      if input != kind.assetA && input != kind.assetB then Err(InvalidPoolAsset)
      else
        var inKey, outKey := Reserve(pool, input), Reserve(pool, OutputOf(kind, input));
        var reserveIn, reserveOut := Get(s.storage, inKey), Get(s.storage, outKey);
        var quote :- Quote(reserveIn, reserveOut, amountIn, kind.feeBps);
        if quote.0 != amountOut then Err(SlippageExceeded)
        else
          var next :- Add(reserveIn, amountIn);
          Ok(Put(Put(s, inKey, next), outKey, SaturatingSub(reserveOut, amountOut)))
  }

  function ApplyAdd(cfg: Config, s: Store, pool: Id, amountA: nat, amountB: nat): Exec {
    if !IsPool(cfg, pool) then Err(ContractNotFound)
    else
      var keyA, keyB := Reserve(pool, cfg.contracts[pool].assetA), Reserve(pool, cfg.contracts[pool].assetB);
      var nextA :- Add(Get(s.storage, keyA), amountA);
      var nextB :- Add(Get(s.storage, keyB), amountB);
      Ok(Put(Put(s, keyA, nextA), keyB, nextB))
  }

  ghost function RunSteps(cfg: Config, s: Store, log: seq<Step>): Exec
    decreases |log|
  {
    if log == [] then Ok(s)
    else
      var s1 :- ApplyStep(cfg, s, log[0]);
      RunSteps(cfg, s1, log[1..])
  }

  lemma {:induction false} RunJoin(cfg: Config, s: Store, a: seq<Step>, s1: Store, b: seq<Step>)
    requires RunSteps(cfg, s, a) == Ok(s1)
    ensures RunSteps(cfg, s, a + b) == RunSteps(cfg, s1, b)
    decreases |a|
  {
    if a == [] {
      assert a + b == b;
    } else {
      assert (a + b)[1..] == a[1..] + b;
      RunJoin(cfg, ApplyStep(cfg, s, a[0]).value, a[1..], s1, b);
    }
  }

  lemma RunExtend(cfg: Config, s: Store, log: seq<Step>, s1: Store, step: Step)
    requires RunSteps(cfg, s, log) == Ok(s1)
    ensures RunSteps(cfg, s, log + [step]) == ApplyStep(cfg, s1, step)
  {
    RunJoin(cfg, s, log, s1, [step]);
    assert [step][1..] == [];
    if ApplyStep(cfg, s1, step).Ok? {
      assert RunSteps(cfg, ApplyStep(cfg, s1, step).value, []) == ApplyStep(cfg, s1, step);
    }
  }

  /** The contract whose own keys and messages a step writes; ledger moves have none. */
  function Actor(step: Step): Option<Id> {
    match step
    case Own(c, _, _) => Some(c)
    case SwapReserves(c, _, _, _) => Some(c)
    case AddReserves(c, _, _) => Some(c)
    case Accrue(c, _) => Some(c)
    case Restake(c, _, _) => Some(c)
    case Park(c, _, _) => Some(c)
    case Release(c, _, _) => Some(c)
    case Claim(c, _, _, _) => Some(c)
    case Redeem(c, _, _, _, _, _, _, _) => Some(c)
    case Append(message, _) => Some(message.sourceContract)
    case _ => None
  }

  /** No step acts for a contract on the stack. */
  ghost predicate Respects(log: seq<Step>, stack: seq<Id>) {
    forall i | 0 <= i < |log| :: Actor(log[i]).Some? ==> Actor(log[i]).value !in stack
  }

  /**
    A message a bridge queued for an asset on an aspect ledger: the asset's transfer may have used the id meanwhile.
  */
  predicate Exposed(cfg: Config, message: Message) {
    IsBridge(cfg, message.sourceContract) && AspectLedger(cfg, message.asset)
  }

  /** Messages are queued under a fresh id, unless they are exposed. */
  ghost predicate Guarded(cfg: Config, log: seq<Step>) {
    forall i | 0 <= i < |log| :: log[i].Append? && !log[i].guarded ==> Exposed(cfg, log[i].message)
  }

  /** The keys a contract owns are as they were. */
  ghost predicate SameOwn(a: Storage, b: Storage, c: Id) {
    forall k: StateKey | k.contract == c :: (k in a <==> k in b) && Get(a, k) == Get(b, k)
  }

  lemma SameOwnPut(s: Store, k: StateKey, v: nat, c: Id)
    requires k.contract != c
    ensures SameOwn(s.storage, Put(s, k, v).storage, c)
  {
  }

  lemma SameOwnTwice(a: Storage, b: Storage, d: Storage, c: Id)
    requires SameOwn(a, b, c) && SameOwn(b, d, c)
    ensures SameOwn(a, d, c)
  {
  }

  /** What a committed native transfer writes. */
  lemma TransferWrites(s: Store, token: Id, from: Id, to: Id, asset: Id, amount: nat)
    requires TransferNative(s, token, from, to, asset, amount).Ok?
    ensures var fromKey, toKey := Balance(token, from, asset), Balance(token, to, asset);
            && amount <= Get(s.storage, fromKey)
            && TransferNative(s, token, from, to, asset, amount).value
               == Put(Put(s, fromKey, Get(s.storage, fromKey) - amount), toKey, Get(s.storage, toKey) + amount)
  {
  }

  lemma MintWrites(s: Store, token: Id, to: Id, asset: Id, amount: nat)
    requires MintNative(s, token, to, asset, amount).Ok?
    ensures var supplyKey, toKey := TotalSupply(token, asset), Balance(token, to, asset);
            MintNative(s, token, to, asset, amount).value
            == Put(Put(s, supplyKey, Get(s.storage, supplyKey) + amount), toKey, Get(s.storage, toKey) + amount)
  {
  }

  /** What an accrual writes. */
  lemma AccrualWrites(cfg: Config, s: Store, c: Id, staker: Id, asset: Id, rate: nat)
    requires AccrueRewards(cfg, s, StakingFrame(c, staker, asset), c, staker, asset, rate).Ok?
    ensures RewardsDue(cfg, s.storage, c, staker, asset, rate).Ok?
    ensures AccrueRewards(cfg, s, StakingFrame(c, staker, asset), c, staker, asset, rate).value
         == Accrued(s, c, staker, asset, cfg.height, RewardsDue(cfg, s.storage, c, staker, asset, rate).value)
  {
  }

  function Accrued(s: Store, c: Id, staker: Id, asset: Id, height: nat, due: nat): Store {
    var rewardKey, lastKey := StakingRewardBalance(c, staker, asset), StakingLastRewardHeight(c, staker, asset);
    Put(if due == 0 then s else Put(s, rewardKey, Get(s.storage, rewardKey) + due), lastKey, height)
  }

  lemma PutsFrame(s: Store, k: StateKey, v: nat, k': StateKey, v': nat, c: Id)
    requires k.contract != c && k'.contract != c
    ensures SameOwn(s.storage, Put(Put(s, k, v), k', v').storage, c)
  {
    SameOwnPut(s, k, v, c);
    SameOwnPut(Put(s, k, v), k', v', c);
  }

  lemma MoveFrame(cfg: Config, s: Store, token: Id, from: Id, to: Id, asset: Id, amount: nat, c: Id)
    requires ApplyMove(cfg, s, token, from, to, asset, amount).Ok? && !IsToken(cfg, c)
    ensures SameOwn(s.storage, ApplyMove(cfg, s, token, from, to, asset, amount).value.storage, c)
  {
    TransferWrites(s, token, from, to, asset, amount);
    var fromKey, toKey := Balance(token, from, asset), Balance(token, to, asset);
    PutsFrame(s, fromKey, Get(s.storage, fromKey) - amount, toKey, Get(s.storage, toKey) + amount, c);
  }

  lemma RedeemFrame(cfg: Config, s: Store, d: Id, token: Id, id: string, recipient: Id, asset: Id, amount: nat,
                    certificate: string, txHash: string, c: Id)
    requires ApplyRedeem(cfg, s, d, token, id, recipient, asset, amount, certificate, txHash).Ok? && c != d
             && !IsToken(cfg, c)
    ensures SameOwn(s.storage,
                    ApplyRedeem(cfg, s, d, token, id, recipient, asset, amount, certificate, txHash).value.storage, c)
  {
    MintWrites(s, token, recipient, asset, amount);
    var supplyKey, toKey := TotalSupply(token, asset), Balance(token, recipient, asset);
    PutsFrame(s, supplyKey, Get(s.storage, supplyKey) + amount, toKey, Get(s.storage, toKey) + amount, c);
    SameOwnPut(MintNative(s, token, recipient, asset, amount).value, BridgeMessageConsumed(d, id), 1, c);
  }

  lemma SwapFrame(cfg: Config, s: Store, pool: Id, input: Id, amountIn: nat, amountOut: nat, c: Id)
    requires ApplySwap(cfg, s, pool, input, amountIn, amountOut).Ok? && c != pool
    ensures SameOwn(s.storage, ApplySwap(cfg, s, pool, input, amountIn, amountOut).value.storage, c)
  {
    var inKey, outKey := Reserve(pool, input), Reserve(pool, OutputOf(cfg.contracts[pool], input));
    PutsFrame(s, inKey, Get(s.storage, inKey) + amountIn, outKey, SaturatingSub(Get(s.storage, outKey), amountOut), c);
  }

  lemma AddFrame(cfg: Config, s: Store, pool: Id, amountA: nat, amountB: nat, c: Id)
    requires ApplyAdd(cfg, s, pool, amountA, amountB).Ok? && c != pool
    ensures SameOwn(s.storage, ApplyAdd(cfg, s, pool, amountA, amountB).value.storage, c)
  {
    var keyA, keyB := Reserve(pool, cfg.contracts[pool].assetA), Reserve(pool, cfg.contracts[pool].assetB);
    PutsFrame(s, keyA, Get(s.storage, keyA) + amountA, keyB, Get(s.storage, keyB) + amountB, c);
  }

  lemma AccruedFrame(s: Store, d: Id, staker: Id, asset: Id, height: nat, due: nat, c: Id)
    requires c != d
    ensures SameOwn(s.storage, Accrued(s, d, staker, asset, height, due).storage, c)
  {
  }

  lemma AccrueWrites(cfg: Config, s: Store, d: Id, staker: Id) returns (due: nat)
    requires ApplyAccrue(cfg, s, d, staker).Ok?
    ensures var asset := cfg.contracts[d].stakingAsset;
            && RewardsDue(cfg, s.storage, d, staker, asset, cfg.contracts[d].rewardPerBlock) == Ok(due)
            && ApplyAccrue(cfg, s, d, staker) == Ok(Accrued(s, d, staker, asset, cfg.height, due))
  {
    AccrualWrites(cfg, s, d, staker, cfg.contracts[d].stakingAsset, cfg.contracts[d].rewardPerBlock);
    due := RewardsDue(cfg, s.storage, d, staker, cfg.contracts[d].stakingAsset, cfg.contracts[d].rewardPerBlock).value;
  }

  lemma AccrueFrame(cfg: Config, s: Store, d: Id, staker: Id, after: Store, c: Id)
    requires ApplyAccrue(cfg, s, d, staker) == Ok(after) && c != d
    ensures SameOwn(s.storage, after.storage, c)
  {
    var due := AccrueWrites(cfg, s, d, staker);
    AccruedFrame(s, d, staker, cfg.contracts[d].stakingAsset, cfg.height, due, c);
  }

  /** A step of another contract leaves a non-token contract's keys alone. */
  lemma StepFrame(cfg: Config, s: Store, step: Step, c: Id)
    requires ApplyStep(cfg, s, step).Ok? && !IsToken(cfg, c) && Actor(step) != Some(c)
    ensures SameOwn(s.storage, ApplyStep(cfg, s, step).value.storage, c)
  {
    match step
    case Move(token, from, to, asset, amount) => MoveFrame(cfg, s, token, from, to, asset, amount, c);
    case Own(_, key, value) => SameOwnPut(s, key, value, c);
    case SwapReserves(pool, input, amountIn, amountOut) => SwapFrame(cfg, s, pool, input, amountIn, amountOut, c);
    case AddReserves(pool, amountA, amountB) => AddFrame(cfg, s, pool, amountA, amountB, c);
    case Accrue(d, staker) => AccrueFrame(cfg, s, d, staker, ApplyStep(cfg, s, step).value, c);
    case Restake(d, staker, stake) => SameOwnPut(s, StakeBalance(d, staker, cfg.contracts[d].stakingAsset), stake, c);
    case Park(d, staker, released) => ParkFrame(cfg, s, d, staker, released, c);
    case Release(d, staker, amount) => ReleaseFrame(cfg, s, d, staker, amount, c);
    case Claim(d, staker, token, txHash) => ClaimFrame(cfg, s, d, staker, token, txHash, c);
    case Redeem(d, token, id, recipient, asset, amount, certificate, txHash) =>
      RedeemFrame(cfg, s, d, token, id, recipient, asset, amount, certificate, txHash, c);
    case Append(_, _) =>
    case Note(_, _, _) =>
    case SetGrant(_, _) =>
    case UseCertificate(_) =>
  }

  lemma ParkFrame(cfg: Config, s: Store, d: Id, staker: Id, released: nat, c: Id)
    requires ApplyPark(cfg, s, d, staker, released).Ok? && c != d
    ensures SameOwn(s.storage, ApplyPark(cfg, s, d, staker, released).value.storage, c)
  {
    var kind := cfg.contracts[d];
    var pendingKey, readyKey := PendingUnbond(d, staker, kind.stakingAsset),
      UnbondReadyHeight(d, staker, kind.stakingAsset);
    PutsFrame(s, pendingKey, Get(s.storage, pendingKey) + released, readyKey, cfg.height + kind.unbondingDelay, c);
  }

  lemma ReleaseFrame(cfg: Config, s: Store, d: Id, staker: Id, amount: nat, c: Id)
    requires ApplyRelease(cfg, s, d, staker, amount).Ok? && c != d
    ensures SameOwn(s.storage, ApplyRelease(cfg, s, d, staker, amount).value.storage, c)
  {
    var key := PendingUnbond(d, staker, cfg.contracts[d].stakingAsset);
    SameOwnPut(s, key, Get(s.storage, key) - amount, c);
  }

  lemma ClaimFrame(cfg: Config, s: Store, d: Id, staker: Id, token: Id, txHash: string, c: Id)
    requires ApplyClaim(cfg, s, d, staker, token, txHash).Ok? && c != d && !IsToken(cfg, c)
    ensures SameOwn(s.storage, ApplyClaim(cfg, s, d, staker, token, txHash).value.storage, c)
  {
    var asset := cfg.contracts[d].stakingAsset;
    var rewardKey := StakingRewardBalance(d, staker, asset);
    var claimed := Get(s.storage, rewardKey);
    SameOwnPut(s, rewardKey, 0, c);
    var s1 := Put(s, rewardKey, 0);
    if claimed != 0 {
      MintWrites(s1, token, staker, asset, claimed);
      var supplyKey, toKey := TotalSupply(token, asset), Balance(token, staker, asset);
      PutsFrame(s1, supplyKey, Get(s1.storage, supplyKey) + claimed, toKey, Get(s1.storage, toKey) + claimed, c);
    }
  }

  /** A log that never acts for a non-token contract leaves its keys alone. */
  lemma {:induction false} LogFrame(cfg: Config, s: Store, log: seq<Step>, c: Id)
    requires RunSteps(cfg, s, log).Ok? && !IsToken(cfg, c) && forall i | 0 <= i < |log| :: Actor(log[i]) != Some(c)
    ensures SameOwn(s.storage, RunSteps(cfg, s, log).value.storage, c)
    decreases |log|
  {
    if log != [] {
      StepFrame(cfg, s, log[0], c);
      LogFrame(cfg, ApplyStep(cfg, s, log[0]).value, log[1..], c);
    }
  }

  /** Every queued message's id is recorded. */
  ghost predicate Indexed(s: Store) {
    forall i | 0 <= i < |s.outbox| :: s.outbox[i].id in s.outboundIds
  }

  /** Only `Append` changes the outbox. */
  lemma StepOutbox(cfg: Config, s: Store, step: Step)
    requires ApplyStep(cfg, s, step).Ok? && !step.Append?
    ensures var s' := ApplyStep(cfg, s, step).value; s'.outbox == s.outbox && s'.outboundIds == s.outboundIds
  {
    match step
    case Move(token, from, to, asset, amount) => TransferWrites(s, token, from, to, asset, amount);
    case Accrue(c, staker) => var due := AccrueWrites(cfg, s, c, staker);
    case Claim(c, staker, token, txHash) => ClaimOutbox(cfg, s, c, staker, token, txHash);
    case Redeem(_, token, _, recipient, asset, amount, _, _) => MintWrites(s, token, recipient, asset, amount);
    case _ =>
  }

  lemma ClaimOutbox(cfg: Config, s: Store, c: Id, staker: Id, token: Id, txHash: string)
    requires ApplyClaim(cfg, s, c, staker, token, txHash).Ok?
    ensures var s' := ApplyClaim(cfg, s, c, staker, token, txHash).value;
            s'.outbox == s.outbox && s'.outboundIds == s.outboundIds
  {
    var asset := cfg.contracts[c].stakingAsset;
    var rewardKey := StakingRewardBalance(c, staker, asset);
    var claimed := Get(s.storage, rewardKey);
    if claimed != 0 { MintWrites(Put(s, rewardKey, 0), token, staker, asset, claimed); }
  }

  lemma {:induction false} LogIndexed(cfg: Config, s: Store, log: seq<Step>)
    requires Indexed(s) && RunSteps(cfg, s, log).Ok?
    ensures Indexed(RunSteps(cfg, s, log).value)
    decreases |log|
  {
    if log != [] {
      if !log[0].Append? { StepOutbox(cfg, s, log[0]); }
      LogIndexed(cfg, ApplyStep(cfg, s, log[0]).value, log[1..]);
    }
  }

  /** A log that never acts for a contract queues nothing for it. */
  lemma {:induction false} LogQueued(cfg: Config, s: Store, log: seq<Step>, c: Id, id: string)
    requires RunSteps(cfg, s, log).Ok? && forall i | 0 <= i < |log| :: Actor(log[i]) != Some(c)
    ensures Queued(RunSteps(cfg, s, log).value, c, id) <==> Queued(s, c, id)
    decreases |log|
  {
    if log != [] {
      var s1 := ApplyStep(cfg, s, log[0]).value;
      if log[0].Append? {
        assert Actor(log[0]) != Some(c);
        if Queued(s, c, id) {
          var i :| 0 <= i < |s.outbox| && s.outbox[i].sourceContract == c && s.outbox[i].id == id;
          assert s1.outbox[i] == s.outbox[i];
        }
      } else {
        StepOutbox(cfg, s, log[0]);
      }
      LogQueued(cfg, s1, log[1..], c, id);
    }
  }
}
