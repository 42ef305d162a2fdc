/**
  What a whole tree of calls keeps.  Two things are watched through nested calls of any depth: that a
  contract's account covers what it records against it, and that nothing is queued.
*/
module Watch {
  import opened Common
  import opened AspectIr
  import opened Effects
  import opened Evaluator
  import opened Soundness
  import opened StaticSafety
  import opened Ledger
  import opened Executor
  import opened Steps
  import opened Linearize
  import opened Supply
  import opened Growth
  import opened Pools
  import opened Custody
  import opened Lending

  // ------------------------------------------------------------ what is watched

  /** A contract's account of an asset on a native ledger. */
  datatype Book = Book(token: Id, holder: Id, asset: Id)

  /** Assets that the methods of a contract move. */
  function Dealt(kind: Kind): set<Id> {
    match kind
    case AmmPool(a, b, _) => {a, b}
    case LendingVault(collateral, debt, _, _, _, _, _) => {collateral, debt}
    case Staking(asset, _, _, _) => {asset}
    case _ => {}
  }

  /** The contract records what it has to hold of the asset. */
  predicate Records(kind: Kind, asset: Id) {
    match kind
    case AmmPool(a, b, _) => asset == a || asset == b
    case LendingVault(collateral, _, _, _, _, _, _) => asset == collateral
    case Staking(a, _, _, _) => asset == a
    case _ => false
  }

  /** Reserves of a pool, collateral of a vault, obligations of a staking contract. */
  ghost function Recorded(kind: Kind, m: Storage, b: Book): nat {
    match kind
    case AmmPool(_, _, _) => Get(m, Reserve(b.holder, b.asset))
    case LendingVault(_, _, _, _, _, _, _) => Total(m, CollateralOf(b.holder, b.asset))
    case Staking(_, _, _, _) => Obligations(m, b.holder, b.asset)
    case _ => 0
  }

  /** What the account holds beyond what is recorded against it. */
  ghost function Backing(kind: Kind, m: Storage, b: Book): int {
    Surplus(m, b.token, b.holder, b.asset, Recorded(kind, m, b))
  }

  /** No one may spend from the contract's accounts. */
  ghost predicate Ungranted(s: Store, c: Id) {
    forall k | k in s.registry.Keys && k.Allowance? :: k.owner != c
  }

  /** The account is on the ledger that issued the asset, and the contract deals in issued assets only. */
  ghost predicate Banked(cfg: Config, s: Store, b: Book) {
    && b.holder in cfg.contracts && Records(cfg.contracts[b.holder], b.asset)
    && TotalSupply(b.token, b.asset) in s.storage
    && forall a | a in Dealt(cfg.contracts[b.holder]) :: Issued(s.storage, a)
  }

  /** The method is verified, says that it queues nothing, and calls only the contracts in `quiet`. */
  ghost predicate SilentMethod(m: Module, p: Key, quiet: set<Id>) {
    && p in m.policies && CrossShardOutboxAppend !in m.policies[p].effects
    && (forall pattern | pattern in m.policies[p].calls :: pattern.target.ExactContract?
          && pattern.target.contract in quiet)
    && exists root :: Harmless(m, p, root)
  }

  ghost predicate Harmless(m: Module, p: Key, root: Key) {
    ProjectionSafe(m, p, root) && CleanBodies(m, Reached(m, root)) && DirectProjection(m, m.projections[p], root)
  }

  ghost predicate SilentKind(cfg: Config, kind: Kind, quiet: set<Id>) {
    && !kind.Bridge? && (kind.Router? ==> kind.token in quiet)
    && (forall a | a in Dealt(kind) :: AspectLedger(cfg, a) ==> a in quiet)
    && (kind.Aspect? && kind.moduleHash in cfg.modules ==>
          var m := cfg.modules[kind.moduleHash].ir;
          forall p | p in m.projections && p in m.policies && p.0 == kind.bundle :: SilentMethod(m, p, quiet))
  }

  /** Contracts that queue nothing and whose calls stay among themselves. */
  ghost predicate SilentSet(cfg: Config, quiet: set<Id>) {
    forall c | c in quiet && c in cfg.contracts :: SilentKind(cfg, cfg.contracts[c], quiet)
  }

  datatype Watch = Account(book: Book) | Silence(quiet: set<Id>)

  /** The contract may be called. */
  predicate MayRun(w: Watch, c: Id) {
    w.Silence? ==> c in w.quiet
  }

  /** Payments by `p` are not payments out of the watched account. */
  predicate MayPay(w: Watch, p: Id) {
    w.Account? ==> p != w.book.holder
  }

  ghost predicate Fit(cfg: Config, w: Watch, s: Store) {
    && WellFormed(cfg) && Indexed(s)
    && match w
       case Account(b) => Supplied(cfg, s.storage) && Banked(cfg, s, b)
       case Silence(quiet) => SilentSet(cfg, quiet)
  }

  /**
    The watched thing is kept: unless someone has been granted the right to spend from the account, it is no
    worse backed than before; or, nothing has been queued.
  */
  ghost predicate Kept(cfg: Config, w: Watch, s: Store, s': Store) {
    match w
    case Account(b) =>
      && s.registry.Keys <= s'.registry.Keys
      && (b.holder in cfg.contracts && Ungranted(s', b.holder) ==>
            Backing(cfg.contracts[b.holder], s.storage, b) <= Backing(cfg.contracts[b.holder], s'.storage, b))
    case Silence(_) => s'.outbox == s.outbox && s'.outboundIds == s.outboundIds
  }

  lemma KeptSelf(cfg: Config, w: Watch, s: Store)
    ensures Kept(cfg, w, s, s)
  {
  }

  lemma KeptTwice(cfg: Config, w: Watch, s: Store, s1: Store, s2: Store)
    requires Kept(cfg, w, s, s1) && Kept(cfg, w, s1, s2)
    ensures Kept(cfg, w, s, s2)
  {
    hide Backing;
    if w.Account? && Ungranted(s2, w.book.holder) {
      forall k | k in s1.registry.Keys && k.Allowance? ensures k.owner != w.book.holder {
        assert k in s2.registry.Keys;
      }
    }
  }

  lemma LinearFit(cfg: Config, w: Watch, s: Store, log: seq<Step>, s1: Store, stack: seq<Id>)
    requires Fit(cfg, w, s) && Linear(cfg, s, log, s1, stack)
    ensures Fit(cfg, w, s1) && s.registry.Keys <= s1.registry.Keys
  {
    hide Supplied, RunSteps, Indexed, SilentSet, Issued;
    LogIndexed(cfg, s, log);
    LogGrown(cfg, s, log);
    if w.Account? {
      LogSupplied(cfg, s, log);
      LogAccounts(cfg, s, log, w.book.token, w.book.asset);
      forall a | a in Dealt(cfg.contracts[w.book.holder]) ensures Issued(s1.storage, a) { LogIssued(cfg, s, log, a); }
    }
  }

  // ---------------------------------------------------------------- single writes

  /** Keys in which a contract records what it has to hold. */
  predicate Recording(k: StateKey) {
    k.Reserve? || k.Collateral? || k.TotalStaked? || k.TotalPendingUnbond? || k.StakingPenaltyCollected?
  }

  lemma RecordedSame(kind: Kind, m: Storage, m': Storage, b: Book)
    requires forall k: StateKey | k.contract == b.holder && Recording(k) :: Get(m', k) == Get(m, k)
    ensures Recorded(kind, m', b) == Recorded(kind, m, b)
  {
    if kind.LendingVault? {
      TotalExcept(m, m', CollateralOf(b.holder, b.asset), Collateral(b.holder, b.holder, b.asset));
    }
  }

  /** Only keys of `d`, and events, have changed. */
  ghost predicate OnlyOwn(s: Store, s': Store, d: Id) {
    && s'.registry == s.registry && s'.outbox == s.outbox && s'.outboundIds == s.outboundIds
    && forall k: StateKey | k.contract != d :: Get(s'.storage, k) == Get(s.storage, k)
  }

  lemma OwnKept(cfg: Config, w: Watch, s: Store, s': Store, d: Id)
    requires Fit(cfg, w, s) && OnlyOwn(s, s', d) && MayPay(w, d) && !IsToken(cfg, d)
    ensures Kept(cfg, w, s, s')
  {
    if w.Account? {
      TokenIsToken(cfg, w, s);
      RecordedSame(cfg.contracts[w.book.holder], s.storage, s'.storage, w.book);
    }
  }

  lemma TokenIsToken(cfg: Config, w: Watch, s: Store)
    requires Fit(cfg, w, s) && w.Account?
    ensures IsToken(cfg, w.book.token) && !IsToken(cfg, w.book.holder)
  {
  }

  /** A ledger entry of someone else, or a gift, does the account no harm. */
  lemma LedgerKept(cfg: Config, w: Watch, s: Store, s': Store, token: Id)
    requires Fit(cfg, w, s) && IsToken(cfg, token)
    requires s'.registry == s.registry && s'.outbox == s.outbox && s'.outboundIds == s.outboundIds
    requires forall k: StateKey | k.contract != token :: Get(s'.storage, k) == Get(s.storage, k)
    requires w.Account? ==>
               var key := Balance(w.book.token, w.book.holder, w.book.asset);
               Get(s.storage, key) <= Get(s'.storage, key)
    ensures Kept(cfg, w, s, s')
  {
    if w.Account? {
      TokenIsToken(cfg, w, s);
      RecordedSame(cfg.contracts[w.book.holder], s.storage, s'.storage, w.book);
    }
  }

  lemma MoveKept(cfg: Config, w: Watch, s: Store, token: Id, from: Id, to: Id, asset: Id, amount: nat)
    requires Fit(cfg, w, s) && IsToken(cfg, token) && MayPay(w, from)
             && TransferNative(s, token, from, to, asset, amount).Ok?
    ensures Kept(cfg, w, s, TransferNative(s, token, from, to, asset, amount).value)
  {
    hide TransferNative, Fit, Kept;
    TransferWrites(s, token, from, to, asset, amount);
    LedgerKept(cfg, w, s, TransferNative(s, token, from, to, asset, amount).value, token);
  }

  lemma MintKept(cfg: Config, w: Watch, s: Store, token: Id, to: Id, asset: Id, amount: nat)
    requires Fit(cfg, w, s) && IsToken(cfg, token) && MintNative(s, token, to, asset, amount).Ok?
    ensures Kept(cfg, w, s, MintNative(s, token, to, asset, amount).value)
  {
    hide MintNative, Fit, Kept;
    MintWrites(s, token, to, asset, amount);
    LedgerKept(cfg, w, s, MintNative(s, token, to, asset, amount).value, token);
  }

  /** The watched things are not in the events or the certificates, and grants are only added to. */
  lemma AsideKept(cfg: Config, w: Watch, s: Store, s': Store)
    requires s'.storage == s.storage && s.registry.Keys <= s'.registry.Keys && s'.outbox == s.outbox
             && s'.outboundIds == s.outboundIds
    ensures Kept(cfg, w, s, s')
  {
  }
}
