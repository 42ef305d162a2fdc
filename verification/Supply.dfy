/** Native token supply: what a transfer can and cannot do, and what holds of balances over every log. */
module Supply {
  import opened Common
  import opened Ledger
  import opened Executor
  import opened Steps

  // ---------------------------------------------------------------- one transfer

  /** The totals after the two balance writes of a transfer or a mint. */
  lemma CreditTotal(m: Storage, token: Id, to: Id, asset: Id, v: nat)
    ensures Total(m[Balance(token, to, asset) := v], BalancesOf(token, asset))
         == Total(m, BalancesOf(token, asset)) - Get(m, Balance(token, to, asset)) + v
  {
    TotalUpdate(m, Balance(token, to, asset), v, BalancesOf(token, asset));
  }

  /**
    On a ledger that adds up, a transfer commits exactly when the sender has the amount and is not
    its own receiver (unless nothing moves); then the ledger still adds up.  Overflow and the supply
    check can only be met by a transfer to oneself.
  */
  lemma TransferExact(s: Store, token: Id, from: Id, to: Id, asset: Id, amount: nat)
    requires Balanced(s.storage, token, asset)
    ensures var r := TransferNative(s, token, from, to, asset, amount);
            && (r.Ok? <==> amount <= Get(s.storage, Balance(token, from, asset)) && (from != to || amount == 0))
            && (r.Ok? ==> Balanced(r.value.storage, token, asset))
            && (r.Err? && amount > Get(s.storage, Balance(token, from, asset)) ==> r.error == InsufficientBalance)
            && (r.Err? && amount <= Get(s.storage, Balance(token, from, asset)) ==>
                  from == to && (r.error == Overflow || r.error == InvariantViolation))
  {
    var fromKey, toKey := Balance(token, from, asset), Balance(token, to, asset);
    var family := BalancesOf(token, asset);
    var held, had := Get(s.storage, fromKey), Get(s.storage, toKey);
    if amount <= held {
      if from != to { TwoMembersBelowTotal(s.storage, fromKey, toKey, family); } else {
        MemberBelowTotal(s.storage, fromKey, family);
      }
      var m1 := s.storage[fromKey := held - amount];
      CreditTotal(s.storage, token, from, asset, held - amount);
      CreditTotal(m1, token, to, asset, had + amount);
    }
  }

  /** A positive transfer to oneself never commits. */
  lemma SelfTransferRefused(s: Store, token: Id, account: Id, asset: Id, amount: nat)
    requires Balanced(s.storage, token, asset) && amount > 0
    ensures TransferNative(s, token, account, account, asset, amount).Err?
  {
    TransferExact(s, token, account, account, asset, amount);
  }

  /** A mint of the ledger that adds up is refused only when the supply would overflow. */
  lemma MintExact(s: Store, token: Id, to: Id, asset: Id, amount: nat)
    requires Balanced(s.storage, token, asset)
    ensures var r := MintNative(s, token, to, asset, amount);
            if Get(s.storage, TotalSupply(token, asset)) + amount <= U128_MAX
            then r.Ok? && Balanced(r.value.storage, token, asset)
            else r == Err(Overflow)
  {
    var supplyKey, toKey := TotalSupply(token, asset), Balance(token, to, asset);
    var family := BalancesOf(token, asset);
    MemberBelowTotal(s.storage, toKey, family);
    var m1 := s.storage[supplyKey := Get(s.storage, supplyKey) + amount];
    TotalUpdate(s.storage, supplyKey, Get(s.storage, supplyKey) + amount, family);
    CreditTotal(m1, token, to, asset, Get(m1, toKey) + amount);
  }

  // ------------------------------------------------------------------ every ledger

  /** Ledger keys belong to tokens, every ledger adds up, and no asset has two ledgers. */
  ghost predicate Supplied(cfg: Config, m: Storage) {
    && (forall k | k in m && (k.Balance? || k.TotalSupply?) :: IsToken(cfg, k.contract))
    && (forall token, asset :: Balanced(m, token, asset))
    && (forall a, b | a in m && b in m && a.TotalSupply? && b.TotalSupply? && a.asset == b.asset :: a == b)
  }

  /** In such a state the native ledger of an asset is found without ambiguity. */
  lemma AtMostOneLedger(cfg: Config, m: Storage, asset: Id)
    requires Supplied(cfg, m)
    ensures |NativeLedgers(cfg, m, asset)| <= 1
  {
    var natives := NativeLedgers(cfg, m, asset);
    if natives != {} {
      var t :| t in natives;
      assert natives == {t};
    }
  }

  /** A write outside the ledgers. */
  lemma PutElsewhere(cfg: Config, s: Store, k: StateKey, v: nat)
    requires Supplied(cfg, s.storage) && !k.Balance? && !k.TotalSupply?
    ensures Supplied(cfg, Put(s, k, v).storage)
  {
    forall token, asset ensures Balanced(Put(s, k, v).storage, token, asset) {
      assert Balanced(s.storage, token, asset);
      TotalUpdate(s.storage, k, v, BalancesOf(token, asset));
    }
  }

  /** Two writes to one ledger leave the others as they were. */
  lemma OtherLedgers(m: Storage, k: StateKey, v: nat, k': StateKey, v': nat, token: Id, asset: Id)
    requires k.Balance? || k.TotalSupply?
    requires k'.Balance? && k'.contract == k.contract && k'.asset == k.asset
             && (k.contract != token || k.asset != asset)
    ensures Balanced(m[k := v][k' := v'], token, asset) <==> Balanced(m, token, asset)
  {
    TotalUpdate(m, k, v, BalancesOf(token, asset));
    TotalUpdate(m[k := v], k', v', BalancesOf(token, asset));
  }

  lemma MoveSupplied(cfg: Config, s: Store, token: Id, from: Id, to: Id, asset: Id, amount: nat)
    requires Supplied(cfg, s.storage) && ApplyMove(cfg, s, token, from, to, asset, amount).Ok?
    ensures Supplied(cfg, ApplyMove(cfg, s, token, from, to, asset, amount).value.storage)
  {
    var s' := TransferNative(s, token, from, to, asset, amount).value;
    var fromKey, toKey := Balance(token, from, asset), Balance(token, to, asset);
    TransferWrites(s, token, from, to, asset, amount);
    forall t, a ensures Balanced(s'.storage, t, a) {
      assert Balanced(s.storage, t, a);
      if t != token || a != asset {
        OtherLedgers(s.storage, fromKey, Get(s.storage, fromKey) - amount, toKey, Get(s.storage, toKey) + amount, t, a);
      }
    }
  }

  lemma MintSupplied(cfg: Config, s: Store, token: Id, to: Id, asset: Id, amount: nat)
    requires Supplied(cfg, s.storage) && token in NativeLedgers(cfg, s.storage, asset)
             && MintNative(s, token, to, asset, amount).Ok?
    ensures Supplied(cfg, MintNative(s, token, to, asset, amount).value.storage)
  {
    var s' := MintNative(s, token, to, asset, amount).value;
    var supplyKey, toKey := TotalSupply(token, asset), Balance(token, to, asset);
    MintWrites(s, token, to, asset, amount);
    forall t, a ensures Balanced(s'.storage, t, a) {
      assert Balanced(s.storage, t, a);
      if t != token || a != asset {
        OtherLedgers(s.storage, supplyKey, Get(s.storage, supplyKey) + amount, toKey, Get(s.storage, toKey) + amount,
                     t, a);
      }
    }
    assert supplyKey in s.storage;
  }

  lemma AccruedSupplied(cfg: Config, s: Store, c: Id, staker: Id, asset: Id, height: nat, due: nat)
    requires Supplied(cfg, s.storage)
    ensures Supplied(cfg, Accrued(s, c, staker, asset, height, due).storage)
  {
    hide Supplied;
    var rewardKey := StakingRewardBalance(c, staker, asset);
    var s1 := if due == 0 then s else Put(s, rewardKey, Get(s.storage, rewardKey) + due);
    if due != 0 { PutElsewhere(cfg, s, rewardKey, Get(s.storage, rewardKey) + due); }
    PutElsewhere(cfg, s1, StakingLastRewardHeight(c, staker, asset), height);
  }

  lemma AccrueSupplied(cfg: Config, s: Store, c: Id, staker: Id, after: Store)
    requires Supplied(cfg, s.storage) && ApplyAccrue(cfg, s, c, staker) == Ok(after)
    ensures Supplied(cfg, after.storage)
  {
    hide Supplied, Accrued, RewardsDue, AccrueRewards;
    var due := AccrueWrites(cfg, s, c, staker);
    AccruedSupplied(cfg, s, c, staker, cfg.contracts[c].stakingAsset, cfg.height, due);
  }

  lemma SwapSupplied(cfg: Config, s: Store, pool: Id, input: Id, amountIn: nat, amountOut: nat)
    requires Supplied(cfg, s.storage) && ApplySwap(cfg, s, pool, input, amountIn, amountOut).Ok?
    ensures Supplied(cfg, ApplySwap(cfg, s, pool, input, amountIn, amountOut).value.storage)
  {
    hide Supplied, Quote;
    var inKey, outKey := Reserve(pool, input), Reserve(pool, OutputOf(cfg.contracts[pool], input));
    var next := Get(s.storage, inKey) + amountIn;
    PutElsewhere(cfg, s, inKey, next);
    PutElsewhere(cfg, Put(s, inKey, next), outKey, SaturatingSub(Get(s.storage, outKey), amountOut));
  }

  lemma AddSupplied(cfg: Config, s: Store, pool: Id, amountA: nat, amountB: nat)
    requires Supplied(cfg, s.storage) && ApplyAdd(cfg, s, pool, amountA, amountB).Ok?
    ensures Supplied(cfg, ApplyAdd(cfg, s, pool, amountA, amountB).value.storage)
  {
    hide Supplied;
    var keyA, keyB := Reserve(pool, cfg.contracts[pool].assetA), Reserve(pool, cfg.contracts[pool].assetB);
    var nextA := Get(s.storage, keyA) + amountA;
    PutElsewhere(cfg, s, keyA, nextA);
    PutElsewhere(cfg, Put(s, keyA, nextA), keyB, Get(s.storage, keyB) + amountB);
  }

  lemma ClaimSupplied(cfg: Config, s: Store, c: Id, staker: Id, token: Id, txHash: string)
    requires Supplied(cfg, s.storage) && ApplyClaim(cfg, s, c, staker, token, txHash).Ok?
    ensures Supplied(cfg, ApplyClaim(cfg, s, c, staker, token, txHash).value.storage)
  {
    hide Supplied, MintNative, NativeLedgers;
    var asset := cfg.contracts[c].stakingAsset;
    var rewardKey := StakingRewardBalance(c, staker, asset);
    var claimed := Get(s.storage, rewardKey);
    PutElsewhere(cfg, s, rewardKey, 0);
    if claimed != 0 { MintSupplied(cfg, Put(s, rewardKey, 0), token, staker, asset, claimed); }
  }

  lemma RedeemSupplied(cfg: Config, s: Store, c: Id, token: Id, id: string, recipient: Id, asset: Id, amount: nat,
                       certificate: string, txHash: string)
    requires Supplied(cfg, s.storage)
             && ApplyRedeem(cfg, s, c, token, id, recipient, asset, amount, certificate, txHash).Ok?
    ensures Supplied(cfg,
                     ApplyRedeem(cfg, s, c, token, id, recipient, asset, amount, certificate, txHash).value.storage)
  {
    hide Supplied, MintNative, NativeLedgers, BridgeCertified;
    MintSupplied(cfg, s, token, recipient, asset, amount);
    PutElsewhere(cfg, MintNative(s, token, recipient, asset, amount).value, BridgeMessageConsumed(c, id), 1);
  }

  lemma ParkSupplied(cfg: Config, s: Store, c: Id, staker: Id, released: nat)
    requires Supplied(cfg, s.storage) && ApplyPark(cfg, s, c, staker, released).Ok?
    ensures Supplied(cfg, ApplyPark(cfg, s, c, staker, released).value.storage)
  {
    hide Supplied;
    var kind := cfg.contracts[c];
    var pendingKey, readyKey := PendingUnbond(c, staker, kind.stakingAsset),
      UnbondReadyHeight(c, staker, kind.stakingAsset);
    PutElsewhere(cfg, s, pendingKey, Get(s.storage, pendingKey) + released);
    PutElsewhere(cfg, Put(s, pendingKey, Get(s.storage, pendingKey) + released), readyKey,
                 cfg.height + kind.unbondingDelay);
  }

  lemma StepSupplied(cfg: Config, s: Store, step: Step)
    requires Supplied(cfg, s.storage) && ApplyStep(cfg, s, step).Ok?
    ensures Supplied(cfg, ApplyStep(cfg, s, step).value.storage)
  {
    hide Supplied, ApplyMove, ApplySwap, ApplyAdd, ApplyAccrue, ApplyPark, ApplyClaim, ApplyRedeem;
    match step
    case Move(token, from, to, asset, amount) => MoveSupplied(cfg, s, token, from, to, asset, amount);
    case Own(_, key, value) => PutElsewhere(cfg, s, key, value);
    case SwapReserves(pool, input, amountIn, amountOut) => SwapSupplied(cfg, s, pool, input, amountIn, amountOut);
    case AddReserves(pool, amountA, amountB) => AddSupplied(cfg, s, pool, amountA, amountB);
    case Accrue(c, staker) => AccrueSupplied(cfg, s, c, staker, ApplyAccrue(cfg, s, c, staker).value);
    case Restake(c, staker, stake) =>
      PutElsewhere(cfg, s, StakeBalance(c, staker, cfg.contracts[c].stakingAsset), stake);
    case Park(c, staker, released) => ParkSupplied(cfg, s, c, staker, released);
    case Release(c, staker, amount) =>
      var key := PendingUnbond(c, staker, cfg.contracts[c].stakingAsset);
      PutElsewhere(cfg, s, key, Get(s.storage, key) - amount);
    case Claim(c, staker, token, txHash) => ClaimSupplied(cfg, s, c, staker, token, txHash);
    case Redeem(c, token, id, recipient, asset, amount, certificate, txHash) =>
      RedeemSupplied(cfg, s, c, token, id, recipient, asset, amount, certificate, txHash);
    case _ =>
  }

  lemma {:induction false} LogSupplied(cfg: Config, s: Store, log: seq<Step>)
    requires Supplied(cfg, s.storage) && RunSteps(cfg, s, log).Ok?
    ensures Supplied(cfg, RunSteps(cfg, s, log).value.storage)
    decreases |log|
  {
    if log != [] {
      StepSupplied(cfg, s, log[0]);
      LogSupplied(cfg, ApplyStep(cfg, s, log[0]).value, log[1..]);
    }
  }

  // ------------------------------------------------------------------ where supply comes from

  /** What an event says was minted of an asset. */
  function MintedBy(e: Event, asset: Id): nat {
    match e.payload
    case BridgeMessageRedeemed(_, _, a, amount) => if a == asset then amount else 0
    case StakingRewardsClaimed(_, a, amount) => if a == asset then amount else 0
    case Notice(_) => 0
  }

  function Minted(events: seq<Event>, asset: Id): nat {
    if events == [] then 0 else Minted(events[..|events| - 1], asset) + MintedBy(events[|events| - 1], asset)
  }

  lemma MintedEmit(s: Store, contract: Id, txHash: string, payload: Payload, asset: Id)
    ensures Minted(Emit(s, contract, txHash, payload).events, asset)
         == Minted(s.events, asset) + MintedBy(Event(contract, txHash, |s.events|, payload), asset)
  {
    var events := Emit(s, contract, txHash, payload).events;
    assert events[..|events| - 1] == s.events;
  }

  /** The recorded supply of an asset's ledger has grown by exactly what the events since say. */
  ghost predicate Accounts(s: Store, s': Store, token: Id, asset: Id) {
    && TotalSupply(token, asset) in s.storage && TotalSupply(token, asset) in s'.storage
    && Get(s'.storage, TotalSupply(token, asset)) + Minted(s.events, asset)
       == Get(s.storage, TotalSupply(token, asset)) + Minted(s'.events, asset)
  }

  lemma ClaimAccounts(cfg: Config, s: Store, c: Id, staker: Id, t: Id, txHash: string, token: Id, asset: Id)
    requires Supplied(cfg, s.storage) && TotalSupply(token, asset) in s.storage
             && ApplyClaim(cfg, s, c, staker, t, txHash).Ok?
    ensures Accounts(s, ApplyClaim(cfg, s, c, staker, t, txHash).value, token, asset)
  {
    var a := cfg.contracts[c].stakingAsset;
    var rewardKey := StakingRewardBalance(c, staker, a);
    var claimed := Get(s.storage, rewardKey);
    var s1 := Put(s, rewardKey, 0);
    var s2 := s1;
    if claimed != 0 {
      MintWrites(s1, t, staker, a, claimed);
      s2 := MintNative(s1, t, staker, a, claimed).value;
      assert TotalSupply(t, a) in s.storage;
    }
    MintedEmit(s2, c, txHash, StakingRewardsClaimed(staker, a, claimed), asset);
  }

  lemma RedeemAccounts(cfg: Config, s: Store, c: Id, t: Id, id: string, recipient: Id, a: Id, amount: nat,
                       certificate: string, txHash: string,
                       token: Id, asset: Id)
    requires Supplied(cfg, s.storage) && TotalSupply(token, asset) in s.storage
    requires ApplyRedeem(cfg, s, c, t, id, recipient, a, amount, certificate, txHash).Ok?
    ensures Accounts(s, ApplyRedeem(cfg, s, c, t, id, recipient, a, amount, certificate, txHash).value, token, asset)
  {
    hide BridgeCertified;
    MintWrites(s, t, recipient, a, amount);
    var s1 := MintNative(s, t, recipient, a, amount).value;
    assert TotalSupply(t, a) in s.storage;
    MintedEmit(Put(s1, BridgeMessageConsumed(c, id), 1), c, txHash, BridgeMessageRedeemed(id, recipient, a, amount),
               asset);
  }

  lemma StepAccounts(cfg: Config, s: Store, step: Step, token: Id, asset: Id)
    requires Supplied(cfg, s.storage) && TotalSupply(token, asset) in s.storage && ApplyStep(cfg, s, step).Ok?
    ensures Accounts(s, ApplyStep(cfg, s, step).value, token, asset)
  {
    hide Supplied, TransferNative, AccrueRewards, ApplyClaim, ApplyRedeem, Quote;
    match step
    case Move(t, from, to, a, amount) => TransferWrites(s, t, from, to, a, amount);
    case Accrue(c, staker) => var due := AccrueWrites(cfg, s, c, staker);
    case Claim(c, staker, t, txHash) => ClaimAccounts(cfg, s, c, staker, t, txHash, token, asset);
    case Redeem(c, t, id, recipient, a, amount, certificate, txHash) =>
      RedeemAccounts(cfg, s, c, t, id, recipient, a, amount, certificate, txHash, token, asset);
    case Note(c, txHash, name) => MintedEmit(s, c, txHash, Notice(name), asset);
    case _ =>
  }

  /** Supply grows by claimed rewards and redemptions and by nothing else. */
  lemma {:induction false} LogAccounts(cfg: Config, s: Store, log: seq<Step>, token: Id, asset: Id)
    requires Supplied(cfg, s.storage) && TotalSupply(token, asset) in s.storage && RunSteps(cfg, s, log).Ok?
    ensures Accounts(s, RunSteps(cfg, s, log).value, token, asset)
    decreases |log|
  {
    if log != [] {
      var s1 := ApplyStep(cfg, s, log[0]).value;
      StepSupplied(cfg, s, log[0]);
      StepAccounts(cfg, s, log[0], token, asset);
      LogAccounts(cfg, s1, log[1..], token, asset);
    }
  }

  /** Some contract records a supply of the asset. */
  predicate Issued(m: Storage, asset: Id) {
    exists k | k in m :: k.TotalSupply? && k.asset == asset
  }

  lemma LogIssued(cfg: Config, s: Store, log: seq<Step>, asset: Id)
    requires Supplied(cfg, s.storage) && RunSteps(cfg, s, log).Ok? && Issued(s.storage, asset)
    ensures Issued(RunSteps(cfg, s, log).value.storage, asset)
  {
    hide RunSteps, Supplied;
    var k :| k in s.storage && k.TotalSupply? && k.asset == asset;
    assert k == TotalSupply(k.contract, asset);
    LogAccounts(cfg, s, log, k.contract, asset);
  }

  /** An issued asset that resolves at all is kept by the one token that issued it. */
  lemma IssuedResolves(cfg: Config, s: Store, asset: Id, token: Id)
    requires Supplied(cfg, s.storage) && TotalSupply(token, asset) in s.storage
    ensures NativeLedgers(cfg, s.storage, asset) == {token}
    ensures ResolveLedger(cfg, s, asset).Ok? ==> !AspectLedger(cfg, asset)
  {
    var natives := NativeLedgers(cfg, s.storage, asset);
    forall t | t in natives ensures t == token {
      var k :| k in s.storage && k.TotalSupply? && k.asset == asset && k.contract == t;
      assert k == TotalSupply(token, asset);
    }
    assert token in natives;
  }
}
