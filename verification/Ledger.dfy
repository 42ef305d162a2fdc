/** Chain data: transactions, storage keys, the mutable store and sums over it. */
module Ledger {
  import opened Common
  import opened AspectIr
  import opened Merkle

  type Id = string

  datatype Method =
    | Transfer | Approve | TransferFrom | Permit | AddLiquidity | Swap | SubmitPrice
    | QueueBridgeMessage | RedeemBridgeMessage | PauseContract | UnpauseContract
    | ScheduleUpgrade | ExecuteUpgrade | SchedulePolicyUpdate | ExecutePolicyUpdate
    | DepositCollateral | Borrow | Liquidate | Stake | Unstake | RequestUnstake | CompleteUnstake
    | ClaimStakingRewards | RouteTransferFrom | DeployToken | DeployAmmPool | SubmitAspectModule
    | DeployAspectContract | RegisterAccountKey | RevokeAccountKey | Other(name: string)

  datatype Argument =
    | PrincipalArg(id: Id) | AssetArg(id: Id) | AmountArg(amount: nat) | TextArg(text: string)
    | CertificateArg(text: string)

  datatype Transaction = Transaction(
    chainId: Id, txHash: string, sender: Id, nonce: nat, validUntil: Option<nat>,
    target: Id, selector: Method, args: seq<Argument>, signatureOk: bool, budget: nat)

  function MethodUnits(m: Method): nat {
    match m
    case Transfer | PauseContract | UnpauseContract => 20
    case Approve => 18
    case TransferFrom => 32
    case Permit => 50
    case AddLiquidity => 42
    case Swap => 45
    case SubmitPrice => 28
    case QueueBridgeMessage => 34
    case RedeemBridgeMessage => 48
    case ScheduleUpgrade | SchedulePolicyUpdate => 30
    case ExecuteUpgrade | ExecutePolicyUpdate => 40
    case DepositCollateral | Stake | Unstake => 22
    case RequestUnstake | CompleteUnstake | ClaimStakingRewards => 26
    case Borrow => 38
    case Liquidate => 46
    case RouteTransferFrom => 55
    case DeployToken | DeployAmmPool => 60
    case SubmitAspectModule => 80
    case DeployAspectContract => 64
    case RegisterAccountKey | RevokeAccountKey => 24
    case Other(_) => 10
  }

  function TransactionUnits(tx: Transaction): nat {
    SaturatingAdd64(SaturatingAdd64(10, if 2 * |tx.args| > U64_MAX then U64_MAX else 2 * |tx.args|),
                    MethodUnits(tx.selector))
  }

  const BLOCK_RESOURCE_LIMIT: nat := 10_000_000

  function BlockUnits(txs: seq<Transaction>): nat {
    if txs == [] then 0 else SaturatingAdd64(BlockUnits(txs[..|txs| - 1]), TransactionUnits(txs[|txs| - 1]))
  }

  /** Storage keys; every key names the contract that owns it. */
  datatype StateKey =
    | Balance(contract: Id, account: Id, asset: Id)
    | TotalSupply(contract: Id, asset: Id)
    | Reserve(contract: Id, asset: Id)
    | AmmFeeCollected(contract: Id, asset: Id)
    | LpSupply(contract: Id)
    | LpBalance(contract: Id, account: Id)
    | OraclePrice(contract: Id, asset: Id)
    | OracleTimestamp(contract: Id, asset: Id)
    | BridgeMessageConsumed(contract: Id, id: string)
    | Collateral(contract: Id, account: Id, asset: Id)
    | Debt(contract: Id, account: Id, asset: Id)
    | DebtLastAccrualHeight(contract: Id, account: Id, asset: Id)
    | BadDebt(contract: Id, asset: Id)
    | StakeBalance(contract: Id, account: Id, asset: Id)
    | TotalStaked(contract: Id, asset: Id)
    | PendingUnbond(contract: Id, account: Id, asset: Id)
    | TotalPendingUnbond(contract: Id, asset: Id)
    | StakingPenaltyCollected(contract: Id, asset: Id)
    | UnbondReadyHeight(contract: Id, account: Id, asset: Id)
    | StakingRewardBalance(contract: Id, account: Id, asset: Id)
    | StakingLastRewardHeight(contract: Id, account: Id, asset: Id)
    | AspectState(contract: Id, aspect: string, state: string, key: seq<string>)

  type Storage = map<StateKey, nat>

  datatype GrantKey =
    | Allowance(contract: Id, owner: Id, spender: Id, asset: Id)
    | OracleUpdater(contract: Id, subject: Id)

  datatype Grant = Grant(subject: Id, active: bool, revoked: bool, limit: Option<nat>, spent: nat)

  datatype Message = Message(
    sourceChain: Id, sourceContract: Id, sourceHeight: nat, destinationChain: Id, destinationContract: Id,
    id: string, recipient: Id, asset: Id, amount: nat)

  datatype Payload =
    | BridgeMessageRedeemed(id: string, recipient: Id, asset: Id, amount: nat)
    | StakingRewardsClaimed(staker: Id, asset: Id, amount: nat)
    | Notice(name: string)

  datatype Event = Event(contract: Id, txHash: string, index: nat, payload: Payload)

  /** Everything a call may change. */
  datatype Store = Store(
    storage: Storage, registry: map<GrantKey, Grant>, certificates: set<string>,
    outboundIds: set<string>, outbox: seq<Message>, events: seq<Event>)

  datatype ValidatorSet = ValidatorSet(sourceChain: Id, validators: set<Id>, quorum: nat)

  datatype FinalityProof = FinalityProof(
    sourceChain: Id, sourceHeight: nat, blockHash: string, outboxRoot: Hash<Message>,
    quorum: nat, signers: seq<Id>, message: Message, proof: Proof<Message>)

  datatype ArgKind = PrincipalKind | AssetKind | AmountKind | TextKind | CertificateKind

  datatype Deployed = Deployed(ir: Module, abi: map<Key, seq<ArgKind>>)

  datatype Kind =
    | Token
    | AmmPool(assetA: Id, assetB: Id, feeBps: nat)
    | Oracle(oracleAsset: Id, maxAge: nat)
    | Bridge(sourceChain: Id)
    | LendingVault(collateralAsset: Id, debtAsset: Id, oracle: Id, ltvBps: nat, maxOracleAge: nat,
                   interestBps: nat, thresholdBps: nat)
    | Staking(stakingAsset: Id, unbondingDelay: nat, rewardPerBlock: nat, penaltyBps: nat)
    | Router(token: Id)
    | Aspect(moduleHash: string, bundle: string)

  /** The names by which aspects call native methods. */
  const NATIVE_METHODS: map<string, Method> := map[
    "transfer" := Transfer, "approve" := Approve, "transferFrom" := TransferFrom, "permit" := Permit,
    "addLiquidity" := AddLiquidity, "swap" := Swap, "submitPrice" := SubmitPrice,
    "queueBridgeMessage" := QueueBridgeMessage, "redeemBridgeMessage" := RedeemBridgeMessage,
    "pauseContract" := PauseContract, "unpauseContract" := UnpauseContract, "scheduleUpgrade" := Method.ScheduleUpgrade,
    "executeUpgrade" := Method.ExecuteUpgrade, "schedulePolicyUpdate" := SchedulePolicyUpdate,
    "executePolicyUpdate" := ExecutePolicyUpdate, "depositCollateral" := DepositCollateral, "borrow" := Borrow,
    "liquidate" := Liquidate, "stake" := Stake, "unstake" := Unstake, "requestUnstake" := RequestUnstake,
    "completeUnstake" := CompleteUnstake, "claimStakingRewards" := ClaimStakingRewards,
    "routeTransferFrom" := RouteTransferFrom, "deployToken" := DeployToken, "deployAmmPool" := DeployAmmPool,
    "submitAspectModule" := SubmitAspectModule, "deployAspectContract" := DeployAspectContract,
    "registerAccountKey" := RegisterAccountKey, "revokeAccountKey" := RevokeAccountKey]

  /**
    What a transaction may read but not change.  `proofs` is what certificate texts
    decode to, and `names` how method names are read (`NATIVE_METHODS`).
  */
  datatype Config = Config(
    chainId: Id, height: nat, contracts: map<Id, Kind>, modules: map<string, Deployed>,
    paused: set<Id>, trusted: map<Id, ValidatorSet>, proofs: map<string, FinalityProof>, names: map<string, Method>)

  datatype Error =
    | ChainMismatch | InvalidSignature | TransactionExpired | NonceReplay | OutOfGas
    | ReentrancyViolation | ContractNotFound | MethodNotExported | PolicyMissing | ContractPaused | InvalidArguments
    | InsufficientBalance | Overflow | InvariantViolation | ContractIsolationViolation | WriteScopeViolation
    | RegistryGrantMissing | RegistryGrantInactive | RegistryGrantRevoked | AllowanceExceeded
    | InvalidCertificate | CertificateReplay | InvalidPoolAsset | InsufficientLiquidity | SlippageExceeded
    | StaleOraclePrice | UnauthorizedOracleUpdater | OutboundMessageReplay | InvalidBridgeMessage | BridgeMessageReplay
    | InsufficientCollateral | InsufficientStake | TimelockNotReady
    | UnauthorizedContractCall | UnauthorizedContractStateRead

  datatype Ret = UnitRet | UIntRet(amount: nat)

  // ------------------------------------------------------------------------ sums

  function Get(m: Storage, k: StateKey): nat {
    if k in m then m[k] else 0
  }

  /** A family of keys whose values are added up. */
  datatype Family =
    | BalancesOf(contract: Id, asset: Id)
    | LpBalancesOf(contract: Id)
    | StakesOf(contract: Id, asset: Id)
    | PendingOf(contract: Id, asset: Id)
    | CollateralOf(contract: Id, asset: Id)
  {
    predicate Has(k: StateKey) {
      match this
      case BalancesOf(c, a) => k.Balance? && k.contract == c && k.asset == a
      case LpBalancesOf(c) => k.LpBalance? && k.contract == c
      case StakesOf(c, a) => k.StakeBalance? && k.contract == c && k.asset == a
      case PendingOf(c, a) => k.PendingUnbond? && k.contract == c && k.asset == a
      case CollateralOf(c, a) => k.Collateral? && k.contract == c && k.asset == a
    }
  }

  function KeysOf(m: Storage, f: Family): set<StateKey> {
    set k | k in m && f.Has(k)
  }

  ghost function SumKeys(m: Storage, ks: set<StateKey>): nat {
    if ks == {} then 0
    else
      var k :| k in ks;
      Get(m, k) + SumKeys(m, ks - {k})
  }

  ghost function Total(m: Storage, f: Family): nat {
    SumKeys(m, KeysOf(m, f))
  }

  /** The order in which a sum is taken does not matter. */
  lemma {:induction false} SumRemove(m: Storage, ks: set<StateKey>, k: StateKey)
    requires k in ks
    ensures SumKeys(m, ks) == Get(m, k) + SumKeys(m, ks - {k})
    decreases |ks|
  {
    var j :| j in ks && SumKeys(m, ks) == Get(m, j) + SumKeys(m, ks - {j});
    if j != k {
      SumRemove(m, ks - {j}, k);
      SumRemove(m, ks - {k}, j);
      assert ks - {j} - {k} == ks - {k} - {j};
    }
  }

  lemma {:induction false} SumSame(m: Storage, m': Storage, ks: set<StateKey>)
    requires forall k | k in ks :: Get(m, k) == Get(m', k)
    ensures SumKeys(m, ks) == SumKeys(m', ks)
    decreases |ks|
  {
    if ks != {} {
      var k :| k in ks;
      SumRemove(m, ks, k);
      SumRemove(m', ks, k);
      SumSame(m, m', ks - {k});
    }
  }

  /** Writing one key moves exactly the totals that key belongs to, by the difference. */
  lemma TotalUpdate(m: Storage, k: StateKey, v: nat, f: Family)
    ensures Total(m[k := v], f) == (if f.Has(k) then Total(m, f) - Get(m, k) + v else Total(m, f))
  {
    var m' := m[k := v];
    if f.Has(k) {
      assert KeysOf(m', f) == KeysOf(m, f) + {k};
      SumRemove(m', KeysOf(m', f), k);
      var others := KeysOf(m, f) - {k};
      assert KeysOf(m', f) - {k} == others;
      SumSame(m, m', others);
      if k in m { SumRemove(m, KeysOf(m, f), k); } else { assert KeysOf(m, f) == others; }
    } else {
      assert KeysOf(m', f) == KeysOf(m, f);
      SumSame(m, m', KeysOf(m, f));
    }
  }

  lemma MemberBelowTotal(m: Storage, k: StateKey, f: Family)
    requires f.Has(k)
    ensures Get(m, k) <= Total(m, f)
  {
    if k in m { SumRemove(m, KeysOf(m, f), k); }
  }

  lemma TwoMembersBelowTotal(m: Storage, a: StateKey, b: StateKey, f: Family)
    requires f.Has(a) && f.Has(b) && a != b
    ensures Get(m, a) + Get(m, b) <= Total(m, f)
  {
    var ks := KeysOf(m, f);
    if a in m { SumRemove(m, ks, a); }
    if b in m { if a in m { SumRemove(m, ks - {a}, b); } else { SumRemove(m, ks, b); } }
  }

  lemma {:induction false} SumSuperset(m: Storage, ks: set<StateKey>, big: set<StateKey>)
    requires ks <= big && forall k | k in big && k !in ks :: Get(m, k) == 0
    ensures SumKeys(m, big) == SumKeys(m, ks)
    decreases |big - ks|
  {
    if k :| k in big && k !in ks {
      SumRemove(m, big, k);
      assert big - {k} - ks == big - ks - {k} && k in big - ks;
      SumSuperset(m, ks, big - {k});
    } else {
      assert ks == big;
    }
  }

  /** When only one member of a family has changed, the total has changed by as much. */
  lemma TotalExcept(m: Storage, m': Storage, f: Family, key: StateKey)
    requires f.Has(key) && forall k | f.Has(k) && k != key :: Get(m, k) == Get(m', k)
    ensures Total(m', f) == Total(m, f) - Get(m, key) + Get(m', key)
  {
    var all := KeysOf(m, f) + KeysOf(m', f) + {key};
    SumSuperset(m, KeysOf(m, f), all);
    SumSuperset(m', KeysOf(m', f), all);
    SumRemove(m, all, key);
    SumRemove(m', all, key);
    SumSame(m, m', all - {key});
  }
}
