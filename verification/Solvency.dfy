/** Solvency over whole runs: what pools, vaults and staking contracts record is covered by what they hold. */
module Solvency {
  import opened Common
  import opened Ledger
  import opened Executor
  import opened Steps
  import opened Linearize
  import opened Supply
  import opened Growth
  import opened Crossing
  import opened Custody
  import opened Watch
  import opened Trees
  import opened Chain
  import opened Runs

  /** No transaction of the run is sent in the contract's name. */
  predicate NoneSentBy(actions: seq<Action>, c: Id) {
    forall i | 0 <= i < |actions| :: actions[i].Submit? ==> actions[i].tx.sender != c
  }

  lemma SoundFits(w: World, b: Book)
    requires Sound(w) && Banked(w.cfg, w.store, b)
    ensures Fit(w.cfg, Account(b), w.store)
  {
    SoundIsIndexed(w.store);
  }

  /** One action: the account is no worse backed, unless someone may spend from it afterwards. */
  ghost predicate Carried(w: World, w': World, b: Book) {
    && Banked(w.cfg, w.store, b) && Banked(w'.cfg, w'.store, b)
    && w'.cfg.contracts[b.holder] == w.cfg.contracts[b.holder]
    && Kept(w.cfg, Account(b), w.store, w'.store)
  }

  lemma TransactBacked(w: World, tx: Transaction, b: Book)
    requires Sound(w) && Banked(w.cfg, w.store, b) && tx.sender != b.holder
    ensures Carried(w, Transact(w, tx).0, b)
  {
    hide Sound, Banked, ExecuteCall, Kept, Fit;
    SoundFits(w, b);
    KeptSelf(w.cfg, Account(b), w.store);
    if Transact(w, tx).1.Committed? {
      CallKept(w.cfg, Account(b), w.store, tx, tx.sender, []);
      FitIsBanked(w.cfg, Transact(w, tx).0.store, b);
    } else {
      FitIsBanked(w.cfg, w.store, b);
    }
  }

  lemma FitIsBanked(cfg: Config, s: Store, b: Book)
    requires Fit(cfg, Account(b), s)
    ensures Banked(cfg, s, b) && b.holder in cfg.contracts
  {
  }

  lemma DeployBanked(w: World, d: Deployment, b: Book)
    requires Sound(w) && Banked(w.cfg, w.store, b)
    ensures Banked(Deploy(w, d).cfg, Deploy(w, d).store, b)
            && Deploy(w, d).cfg.contracts[b.holder] == w.cfg.contracts[b.holder]
  {
    hide Deployable, DeployedStore, Supplied;
    DeployKeeps(w, d);
    forall a | a in Dealt(w.cfg.contracts[b.holder]) ensures Issued(Deploy(w, d).store.storage, a) {
      assert Issued(w.store.storage, a);
      var k :| k in w.store.storage && k.TotalSupply? && k.asset == a;
      assert k in Deploy(w, d).store.storage;
    }
    if Deployable(w, d) { DeployableIsNew(w, d); }
  }

  lemma DeployBacked(w: World, d: Deployment, b: Book)
    requires Sound(w) && Banked(w.cfg, w.store, b)
    ensures Carried(w, Deploy(w, d), b)
  {
    hide Deploy, Banked;
    DeployBanked(w, d, b);
    DeployKeeps(w, d);
    ActGrown(w, Install(d));
    SoundFits(w, b);
    FitIsBanked(w.cfg, w.store, b);
    TokenIsToken(w.cfg, Account(b), w.store);
    RecordedSame(w.cfg.contracts[b.holder], w.store.storage, Deploy(w, d).store.storage, b);
  }

  lemma ActBacked(w: World, a: Action, b: Book)
    requires Sound(w) && Banked(w.cfg, w.store, b) && (a.Submit? ==> a.tx.sender != b.holder)
    ensures Carried(w, Act(w, a), b)
  {
    hide Transact, Deploy, Sound;
    match a
    case Submit(tx) => TransactBacked(w, tx, b);
    case Install(d) => DeployBacked(w, d, b);
    case NextBlock(_) =>
    case Configure(_, _, _, _) =>
  }

  lemma CarriedTwice(w: World, w1: World, w2: World, b: Book)
    requires Carried(w, w1, b) && Carried(w1, w2, b)
    ensures Carried(w, w2, b)
  {
    hide Banked, Backing;
    BankedHolder(w, b);
    BankedHolder(w1, b);
    KeptTwice(w.cfg, Account(b), w.store, w1.store, w2.store);
  }

  lemma BankedHolder(w: World, b: Book)
    requires Banked(w.cfg, w.store, b)
    ensures b.holder in w.cfg.contracts
  {
  }

  lemma {:induction false} RunCarried(w: World, actions: seq<Action>, b: Book)
    requires Sound(w) && Banked(w.cfg, w.store, b) && NoneSentBy(actions, b.holder)
    ensures Carried(w, Run(w, actions), b)
    decreases |actions|
  {
    hide Sound, Act, Banked, Kept;
    if actions == [] {
      BankedHolder(w, b);
      KeptSelf(w.cfg, Account(b), w.store);
    } else {
      ActSound(w, actions[0]);
      ActBacked(w, actions[0], b);
      RunCarried(Act(w, actions[0]), actions[1..], b);
      CarriedTwice(w, Act(w, actions[0]), Run(w, actions), b);
    }
  }

  /**
    Solvency over runs.  If no transaction is sent in a contract's name and no one is ever granted the right to
    spend from its accounts, then only its own methods pay out of its account, whatever calls whatever; and the
    account is at the end no worse backed than at the beginning.
  */
  lemma RunBacked(w: World, actions: seq<Action>, b: Book)
    requires Sound(w) && Banked(w.cfg, w.store, b) && NoneSentBy(actions, b.holder)
             && Ungranted(Run(w, actions).store, b.holder)
    ensures Backing(w.cfg.contracts[b.holder], w.store.storage, b)
              <= Backing(w.cfg.contracts[b.holder], Run(w, actions).store.storage, b)
  {
    hide Sound, Run, Backing;
    RunCarried(w, actions, b);
  }

  /** For staking: what the contract holds beyond stakes, pending releases and penalties never falls. */
  lemma RunSlack(w: World, actions: seq<Action>, c: Id, token: Id)
    requires Sound(w) && IsStaking(w.cfg, c) && TotalSupply(token, w.cfg.contracts[c].stakingAsset) in w.store.storage
    requires NoneSentBy(actions, c) && Ungranted(Run(w, actions).store, c)
    ensures Slack(w.store.storage, token, c, w.cfg.contracts[c].stakingAsset)
         <= Slack(Run(w, actions).store.storage, token, c, w.cfg.contracts[c].stakingAsset)
  {
    hide Sound, Run;
    var asset := w.cfg.contracts[c].stakingAsset;
    assert TotalSupply(token, asset).asset == asset;
    RunBacked(w, actions, Book(token, c, asset));
  }

  // --------------------------------------------------------------- from the beginning

  lemma TotalZero(m: Storage, f: Family, key: StateKey)
    requires f.Has(key) && forall k | f.Has(k) :: Get(m, k) == 0
    ensures Total(m, f) == 0
  {
    var none: Storage := map[];
    assert KeysOf(none, f) == {};
    TotalExcept(none, m, f, key);
  }

  lemma NewbornBacked(w: World, b: Book)
    requires Newborn(w, b.holder) && b.holder in w.cfg.contracts
    ensures Backing(w.cfg.contracts[b.holder], w.store.storage, b) >= 0
  {
    if w.cfg.contracts[b.holder].LendingVault? {
      TotalZero(w.store.storage, CollateralOf(b.holder, b.asset), Collateral(b.holder, b.holder, b.asset));
    }
  }

  lemma {:induction false} RunIssued(w: World, actions: seq<Action>, asset: Id)
    requires Sound(w) && Issued(w.store.storage, asset)
    ensures Issued(Run(w, actions).store.storage, asset)
  {
    hide Sound, Run;
    var k :| k in w.store.storage && k.TotalSupply? && k.asset == asset;
    assert k == TotalSupply(k.contract, asset);
    RunAccounts(w, actions, k.contract, asset);
  }

  /**
    From genesis: a pool, vault or staking contract deployed after its assets were issued natively holds at least
    what it records, after every run in which no transaction is sent in its name and no one is granted the right to
    spend from its accounts.
  */
  lemma AlwaysCovered(genesis: World, before: seq<Action>, after: seq<Action>, b: Book)
    requires Genesis(genesis)
    requires var w, w' := Run(genesis, before), Run(Run(genesis, before), after);
             && b.holder !in w.cfg.contracts && b.holder in w'.cfg.contracts
             && Records(w'.cfg.contracts[b.holder], b.asset)
             && TotalSupply(b.token, b.asset) in w.store.storage
             && (forall a | a in Dealt(w'.cfg.contracts[b.holder]) :: Issued(w.store.storage, a))
             && NoneSentBy(after, b.holder) && Ungranted(w'.store, b.holder)
    ensures var w' := Run(Run(genesis, before), after);
            Recorded(w'.cfg.contracts[b.holder], w'.store.storage, b)
              <= Get(w'.store.storage, Balance(b.token, b.holder, b.asset))
  {
    hide Sound, Run, Recorded, Newborn;
    var w := Run(genesis, before);
    ReachableSound(genesis, before);
    var n := Birth(w, after, b.holder);
    var w1, w' := Run(w, after[..n + 1]), Run(w, after);
    RunContracts(w1, after[n + 1..], b.holder);
    RunAccounts(w, after[..n + 1], b.token, b.asset);
    forall a | a in Dealt(w1.cfg.contracts[b.holder]) ensures Issued(w1.store.storage, a) {
      RunIssued(w, after[..n + 1], a);
    }
    NewbornBacked(w1, b);
    RunBacked(w1, after[n + 1..], b);
  }
}
