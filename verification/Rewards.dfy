/** Staking rewards do not depend on when they are accrued. */
module Rewards {
  import opened Common
  import opened Ledger
  import opened Executor
  import opened Steps

  /** What one event paid out to a staker. */
  function ClaimedBy(e: Event, c: Id, staker: Id, asset: Id): nat {
    match e.payload
    case StakingRewardsClaimed(u, a, amount) => if e.contract == c && u == staker && a == asset then amount else 0
    case _ => 0
  }

  /** Everything a staker has claimed so far. */
  function Claimed(events: seq<Event>, c: Id, staker: Id, asset: Id): nat {
    if events == [] then 0 else Claimed(events[..|events| - 1], c, staker,
                                        asset) + ClaimedBy(events[|events| - 1], c, staker, asset)
  }

  lemma ClaimedEmit(s: Store, contract: Id, txHash: string, payload: Payload, c: Id, staker: Id, asset: Id)
    ensures Claimed(Emit(s, contract, txHash, payload).events, c, staker, asset)
         == Claimed(s.events, c, staker, asset)
           + ClaimedBy(Event(contract, txHash, |s.events|, payload), c, staker, asset)
  {
    var events := Emit(s, contract, txHash, payload).events;
    assert events[..|events| - 1] == s.events;
  }

  function StakeOf(m: Storage, c: Id, staker: Id, asset: Id): nat {
    Get(m, StakeBalance(c, staker, asset))
  }

  function LastOf(m: Storage, c: Id, staker: Id, asset: Id): nat {
    Get(m, StakingLastRewardHeight(c, staker, asset))
  }

  /** Rewards of the blocks between the last accrual and `height`. */
  function Unaccrued(m: Storage, c: Id, staker: Id, asset: Id, rate: nat, height: nat): int {
    StakeOf(m, c, staker, asset) * rate * (height - LastOf(m, c, staker, asset))
  }

  /** Claimed plus outstanding rewards as of `height`. */
  function Earned(s: Store, c: Id, staker: Id, asset: Id, rate: nat, height: nat): int {
    Claimed(s.events, c, staker, asset) + Get(s.storage, StakingRewardBalance(c, staker, asset))
      + Unaccrued(s.storage, c, staker, asset, rate, height)
  }

  /** The step kept what the staker has earned, and accrued no further than the present. */
  ghost predicate Fair(s: Store, s': Store, c: Id, staker: Id, asset: Id, rate: nat, height: nat) {
    Earned(s', c, staker, asset, rate, height) == Earned(s, c, staker, asset, rate, height)
      && LastOf(s'.storage, c, staker, asset) <= height
  }

  /** Stake and accrual height are unchanged, and rewards have at most moved from outstanding to claimed. */
  lemma Untouched(s: Store, s': Store, c: Id, staker: Id, asset: Id, rate: nat, height: nat)
    requires LastOf(s.storage, c, staker, asset) <= height
    requires StakeOf(s'.storage, c, staker, asset) == StakeOf(s.storage, c, staker, asset)
    requires LastOf(s'.storage, c, staker, asset) == LastOf(s.storage, c, staker, asset)
    requires Claimed(s'.events, c, staker, asset) + Get(s'.storage, StakingRewardBalance(c, staker, asset))
          == Claimed(s.events, c, staker, asset) + Get(s.storage, StakingRewardBalance(c, staker, asset))
    ensures Fair(s, s', c, staker, asset, rate, height)
  {
  }

  lemma AccruedFair(s: Store, d: Id, u: Id, a: Id, height: nat, due: nat, c: Id, staker: Id, asset: Id, rate: nat)
    requires LastOf(s.storage, c, staker, asset) <= height
    requires (d, u, a) == (c, staker, asset) ==> due == Unaccrued(s.storage, c, staker, asset, rate, height)
    ensures Fair(s, Accrued(s, d, u, a, height, due), c, staker, asset, rate, height)
  {
    if (d, u, a) != (c, staker, asset) {
      Untouched(s, Accrued(s, d, u, a, height, due), c, staker, asset, rate, height);
    } else {
      assert Unaccrued(Accrued(s, d, u, a, height, due).storage, c, staker, asset, rate, height) == 0;
    }
  }

  lemma AccrueFair(cfg: Config, s: Store, d: Id, u: Id, after: Store, c: Id, staker: Id)
    requires IsStaking(cfg, c) && ApplyAccrue(cfg, s, d, u) == Ok(after)
             && LastOf(s.storage, c, staker, cfg.contracts[c].stakingAsset) <= cfg.height
    ensures Fair(s, after, c, staker, cfg.contracts[c].stakingAsset, cfg.contracts[c].rewardPerBlock, cfg.height)
  {
    hide Fair, AccrueRewards, Accrued;
    var due := AccrueWrites(cfg, s, d, u);
    AccruedFair(s, d, u, cfg.contracts[d].stakingAsset, cfg.height, due, c, staker, cfg.contracts[c].stakingAsset,
                cfg.contracts[c].rewardPerBlock);
  }

  lemma RestakeFair(cfg: Config, s: Store, d: Id, u: Id, stake: nat, c: Id, staker: Id)
    requires IsStaking(cfg, c) && ApplyRestake(cfg, s, d, u, stake).Ok?
             && LastOf(s.storage, c, staker, cfg.contracts[c].stakingAsset) <= cfg.height
    ensures Fair(s, ApplyRestake(cfg, s, d, u, stake).value, c, staker, cfg.contracts[c].stakingAsset,
                 cfg.contracts[c].rewardPerBlock, cfg.height)
  {
    var s', asset, rate := ApplyRestake(cfg, s, d, u, stake).value, cfg.contracts[c].stakingAsset,
      cfg.contracts[c].rewardPerBlock;
    if d == c && u == staker {
      assert Unaccrued(s.storage, c, staker, asset, rate, cfg.height) == 0
               == Unaccrued(s'.storage, c, staker, asset, rate, cfg.height);
    } else {
      Untouched(s, s', c, staker, asset, rate, cfg.height);
    }
  }

  lemma ClaimFair(cfg: Config, s: Store, d: Id, u: Id, token: Id, txHash: string, c: Id, staker: Id)
    requires IsStaking(cfg, c) && ApplyClaim(cfg, s, d, u, token, txHash).Ok?
             && LastOf(s.storage, c, staker, cfg.contracts[c].stakingAsset) <= cfg.height
    ensures Fair(s, ApplyClaim(cfg, s, d, u, token, txHash).value, c, staker, cfg.contracts[c].stakingAsset,
                 cfg.contracts[c].rewardPerBlock, cfg.height)
  {
    hide Fair, NativeLedgers, MintNative;
    var asset, a := cfg.contracts[c].stakingAsset, cfg.contracts[d].stakingAsset;
    var rewardKey := StakingRewardBalance(d, u, a);
    var claimed := Get(s.storage, rewardKey);
    var s1 := Put(s, rewardKey, 0);
    var s2 := s1;
    if claimed != 0 {
      MintWrites(s1, token, u, a, claimed);
      s2 := MintNative(s1, token, u, a, claimed).value;
    }
    ClaimedEmit(s2, d, txHash, StakingRewardsClaimed(u, a, claimed), c, staker, asset);
    Untouched(s, ApplyClaim(cfg, s, d, u, token, txHash).value, c, staker, asset, cfg.contracts[c].rewardPerBlock,
              cfg.height);
  }

  lemma RedeemFair(cfg: Config, s: Store, d: Id, t: Id, id: string, recipient: Id, a: Id, amount: nat,
                   certificate: string, txHash: string,
                   c: Id, staker: Id, asset: Id, rate: nat)
    requires ApplyRedeem(cfg, s, d, t, id, recipient, a, amount, certificate, txHash).Ok?
             && LastOf(s.storage, c, staker, asset) <= cfg.height
    ensures Fair(s, ApplyRedeem(cfg, s, d, t, id, recipient, a, amount, certificate, txHash).value, c, staker, asset,
                 rate, cfg.height)
  {
    hide Fair, MintNative, BridgeCertified, NativeLedgers;
    MintWrites(s, t, recipient, a, amount);
    var s1 := Put(MintNative(s, t, recipient, a, amount).value, BridgeMessageConsumed(d, id), 1);
    ClaimedEmit(s1, d, txHash, BridgeMessageRedeemed(id, recipient, a, amount), c, staker, asset);
    Untouched(s, ApplyRedeem(cfg, s, d, t, id, recipient, a, amount, certificate, txHash).value, c, staker, asset,
              rate, cfg.height);
  }

  lemma MoveFair(cfg: Config, s: Store, t: Id, from: Id, to: Id, a: Id, amount: nat, c: Id, staker: Id, asset: Id,
                 rate: nat)
    requires ApplyMove(cfg, s, t, from, to, a, amount).Ok? && LastOf(s.storage, c, staker, asset) <= cfg.height
    ensures Fair(s, ApplyMove(cfg, s, t, from, to, a, amount).value, c, staker, asset, rate, cfg.height)
  {
    hide Fair, TransferNative;
    TransferWrites(s, t, from, to, a, amount);
    Untouched(s, ApplyMove(cfg, s, t, from, to, a, amount).value, c, staker, asset, rate, cfg.height);
  }

  /** Accruing, restaking and claiming at one height leave what each staker has earned by then the same. */
  lemma StepFair(cfg: Config, s: Store, step: Step, c: Id, staker: Id)
    requires IsStaking(cfg, c) && ApplyStep(cfg, s, step).Ok?
             && LastOf(s.storage, c, staker, cfg.contracts[c].stakingAsset) <= cfg.height
    ensures Fair(s, ApplyStep(cfg, s, step).value, c, staker, cfg.contracts[c].stakingAsset,
                 cfg.contracts[c].rewardPerBlock, cfg.height)
  {
    hide Fair, ApplyMove, ApplyAccrue, ApplyRestake, ApplyClaim, ApplyRedeem, Quote;
    var s', asset, rate := ApplyStep(cfg, s, step).value, cfg.contracts[c].stakingAsset,
      cfg.contracts[c].rewardPerBlock;
    match step
    case Accrue(d, u) => AccrueFair(cfg, s, d, u, s', c, staker);
    case Restake(d, u, stake) => RestakeFair(cfg, s, d, u, stake, c, staker);
    case Claim(d, u, token, txHash) => ClaimFair(cfg, s, d, u, token, txHash, c, staker);
    case Move(t, from, to, a, amount) => MoveFair(cfg, s, t, from, to, a, amount, c, staker, asset, rate);
    case Redeem(d, t, id, recipient, a, amount, certificate, txHash) =>
      RedeemFair(cfg, s, d, t, id, recipient, a, amount, certificate, txHash, c, staker, asset, rate);
    case Note(d, txHash, name) =>
      ClaimedEmit(s, d, txHash, Notice(name), c, staker, asset);
      Untouched(s, s', c, staker, asset, rate, cfg.height);
    case _ => Untouched(s, s', c, staker, asset, rate, cfg.height);
  }

  lemma {:induction false} LogFair(cfg: Config, s: Store, log: seq<Step>, c: Id, staker: Id)
    requires IsStaking(cfg, c) && RunSteps(cfg, s, log).Ok?
             && LastOf(s.storage, c, staker, cfg.contracts[c].stakingAsset) <= cfg.height
    ensures Fair(s, RunSteps(cfg, s, log).value, c, staker, cfg.contracts[c].stakingAsset,
                 cfg.contracts[c].rewardPerBlock, cfg.height)
    decreases |log|
  {
    if log != [] {
      StepFair(cfg, s, log[0], c, staker);
      LogFair(cfg, ApplyStep(cfg, s, log[0]).value, log[1..], c, staker);
    }
  }

  /** Between two heights a staker earns the stake times the rate for every block. */
  lemma EarnedByWaiting(s: Store, c: Id, staker: Id, asset: Id, rate: nat, height: nat, next: nat)
    ensures Earned(s, c, staker, asset, rate, next)
         == Earned(s, c, staker, asset, rate, height) + StakeOf(s.storage, c, staker, asset) * rate * (next - height)
  {
    var last := LastOf(s.storage, c, staker, asset);
    Distribute(height - last, next - height, StakeOf(s.storage, c, staker, asset) * rate);
  }
}
