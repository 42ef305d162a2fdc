/** Blocks: what a proposer builds every node reproduces, and what a node accepts pins its state. */
module Replication {
  import opened Common
  import opened Ledger
  import opened Executor
  import opened Steps
  import opened Supply
  import opened Crossing
  import opened Chain
  import Mempool
  import Merkle

  // --------------------------------------------------------------------- digests

  lemma {:induction false} ListingExists<K, V>(m: map<K, V>)
    ensures exists entries :: Merkle.Lists(entries, m)
    decreases |m|
  {
    hide Merkle.Lists;
    if m == map[] {
      NothingListed(m);
    } else {
      var k :| k in m;
      assert (m - {k}).Keys == m.Keys - {k};
      ListingExists(m - {k});
      var entries: seq<(K, V)> :| Merkle.Lists(entries, m - {k});
      ListOneMore(entries, m, k);
    }
  }

  lemma NothingListed<K, V>(m: map<K, V>)
    requires m == map[]
    ensures Merkle.Lists<K, V>([], m)
  {
  }

  lemma ListOneMore<K, V>(entries: seq<(K, V)>, m: map<K, V>, k: K)
    requires k in m && Merkle.Lists(entries, m - {k})
    ensures Merkle.Lists(entries + [(k, m[k])], m)
  {
    var all := entries + [(k, m[k])];
    forall x | x in m ensures exists i :: 0 <= i < |all| && all[i].0 == x {
      if x == k {
        assert all[|entries|].0 == x;
      } else {
        assert x in m - {k};
        var i :| 0 <= i < |entries| && entries[i].0 == x;
        assert all[i].0 == x;
      }
    }
  }

  /** The entries of a map in their fixed order. */
  ghost function Entries<K(!new), V(!new)>(m: map<K, V>): (entries: seq<(K, V)>)
    ensures Merkle.Lists(entries, m)
  {
    ListingExists(m);
    var entries :| Merkle.Lists(entries, m); entries
  }

  /** Everything but the chain of blocks itself, committed to at once. */
  datatype GlobalDigest = GlobalDigest(
    chainId: Id, height: nat, contracts: map<Id, Kind>, modules: Merkle.Hash<(string, Deployed)>,
    storage: Merkle.Hash<(StateKey, nat)>, registry: Merkle.Hash<(GrantKey, Grant)>, nonces: set<(Id, nat)>,
    certificates: set<string>, paused: set<Id>, trusted: map<Id, ValidatorSet>, outboundIds: set<string>,
    outbox: Merkle.Hash<Message>, events: Merkle.Hash<Event>)

  datatype Roots = Roots(
    storage: Merkle.Hash<(StateKey, nat)>, registry: Merkle.Hash<(GrantKey, Grant)>, events: Merkle.Hash<Event>,
    nonces: (set<(Id, nat)>, set<string>), outbox: Merkle.Hash<Message>, global: GlobalDigest)

  ghost function RootsOf(w: World): Roots {
    var storage, registry := Merkle.Root(Entries(w.store.storage)), Merkle.Root(Entries(w.store.registry));
    var events, outbox := Merkle.Root(w.store.events), Merkle.Root(w.store.outbox);
    Roots(storage, registry, events, (w.nonces, w.store.certificates), outbox,
          GlobalDigest(w.cfg.chainId, w.cfg.height, w.cfg.contracts, Merkle.Root(Entries(w.cfg.modules)), storage,
                       registry, w.nonces,
                       w.store.certificates, w.cfg.paused, w.cfg.trusted, w.store.outboundIds, outbox, events))
  }

  /** Two nodes decode certificates and method names alike. */
  predicate SameTables(a: World, b: World) {
    a.cfg.proofs == b.cfg.proofs && a.cfg.names == b.cfg.names
  }

  /** The roots determine the state. */
  lemma RootsPinState(a: World, b: World)
    requires Sound(a) && Sound(b) && SameTables(a, b) && RootsOf(a) == RootsOf(b)
    ensures a == b
  {
    hide Supplied;
    Merkle.MapRootBinds(a.store.storage, b.store.storage, Entries(a.store.storage), Entries(b.store.storage));
    Merkle.MapRootBinds(a.store.registry, b.store.registry, Entries(a.store.registry), Entries(b.store.registry));
    Merkle.MapRootBinds(a.cfg.modules, b.cfg.modules, Entries(a.cfg.modules), Entries(b.cfg.modules));
    assert forall w | w == a || w == b :: Merkle.Distinct(w.store.events) && Merkle.Distinct(w.store.outbox) by {
      forall w | w == a || w == b ensures Merkle.Distinct(w.store.events) && Merkle.Distinct(w.store.outbox) {
        SoundIsDistinct(w);
      }
    }
    Merkle.RootBinds(a.store.events, b.store.events);
    Merkle.RootBinds(a.store.outbox, b.store.outbox);
  }

  lemma SoundIsDistinct(w: World)
    requires Sound(w)
    ensures Merkle.Distinct(w.store.events) && Merkle.Distinct(w.store.outbox)
  {
    hide Supplied;
    forall i, j | 0 <= i < j < |w.store.events| ensures w.store.events[i] != w.store.events[j] {
      assert w.store.events[i].index == i && w.store.events[j].index == j;
    }
  }

  // ---------------------------------------------------------------------- blocks

  datatype Receipt = Receipt(txHash: string, outcome: Outcome, units: nat, after: Roots)

  /** The hash of the last finalized block. */
  datatype Tip = Genesis | After(header: Header)

  datatype Header = Header(
    chainId: Id, height: nat, previous: Tip, txRoot: Merkle.Hash<Transaction>, receiptRoot: Merkle.Hash<Receipt>,
    roots: Roots,
    timestamp: nat, proposer: Id, certificate: string)

  datatype Block = Block(header: Header, transactions: seq<Transaction>, receipts: seq<Receipt>)

  datatype Node = Node(world: World, tip: Tip)

  datatype BlockError =
    | ChainMismatch | ResourceLimitExceeded(units: nat) | PreviousBlockMismatch | TxRootMismatch | ReceiptMismatch
    | ReceiptRootMismatch | RootMismatch

  ghost function ReceiptOf(w: World, tx: Transaction): Receipt {
    var (w', outcome) := Transact(w, tx);
    Receipt(tx.txHash, outcome, if outcome.Rejected? then 0 else TransactionUnits(tx), RootsOf(w'))
  }

  /** Transactions in order, with their receipts. */
  ghost function TransactAll(w: World, txs: seq<Transaction>): (World, seq<Receipt>)
    decreases |txs|
  {
    if txs == [] then (w, [])
    else
      var last := |txs| - 1;
      var (w', receipts) := TransactAll(w, txs[..last]);
      (Transact(w', txs[last]).0, receipts + [ReceiptOf(w', txs[last])])
  }

  /** What the proposer announces and the state it moves to. */
  ghost function Build(n: Node, height: nat, txs: seq<Transaction>, timestamp: nat, proposer: Id,
                       certificate: string): (Block, Node) {
    var (w, receipts) := TransactAll(n.world.(cfg := n.world.cfg.(height := height)), txs);
    var header := Header(n.world.cfg.chainId, height, n.tip, Merkle.Root(txs), Merkle.Root(receipts), RootsOf(w),
                         timestamp, proposer, certificate);
    (Block(header, txs, receipts), Node(w, After(header)))
  }

  /** A node re-executes a block and adopts the result only if everything matches. */
  ghost function Apply(n: Node, block: Block): Result<Node, BlockError> {
    if block.header.chainId != n.world.cfg.chainId then Err(BlockError.ChainMismatch)
    else if BlockUnits(block.transactions) > BLOCK_RESOURCE_LIMIT then
      Err(ResourceLimitExceeded(BlockUnits(block.transactions)))
    else if block.header.previous != n.tip then Err(PreviousBlockMismatch)
    else if block.header.txRoot != Merkle.Root(block.transactions) then Err(TxRootMismatch)
    else
      var (w, receipts) := TransactAll(n.world.(cfg := n.world.cfg.(height := block.header.height)),
                                       block.transactions);
      if receipts != block.receipts then Err(ReceiptMismatch)
      else if block.header.receiptRoot != Merkle.Root(receipts) then Err(ReceiptRootMismatch)
      else if block.header.roots != RootsOf(w) then Err(RootMismatch)
      else Ok(Node(w, After(block.header)))
  }

  lemma {:induction false} TransactAllSound(w: World, txs: seq<Transaction>)
    requires Sound(w)
    ensures var w' := TransactAll(w, txs).0; Sound(w') && w'.cfg == w.cfg
    decreases |txs|
  {
    hide Sound, Transact, RootsOf;
    if txs != [] {
      var last := |txs| - 1;
      TransactAllSound(w, txs[..last]);
      var before := TransactAll(w, txs[..last]).0;
      TransactSound(before, txs[last]);
      CfgKept(before, txs[last]);
    }
  }

  lemma CfgKept(w: World, tx: Transaction)
    ensures Transact(w, tx).0.cfg == w.cfg
  {
    hide ExecuteCall;
  }

  /**
    A node in the proposer's state accepts the proposer's block, if it is within the limit, and reproduces its state
    exactly.
  */
  lemma ApplyReproduces(n: Node, height: nat, txs: seq<Transaction>, timestamp: nat, proposer: Id, certificate: string)
    ensures var (block, built) := Build(n, height, txs, timestamp, proposer, certificate);
            Apply(n, block) == (if BlockUnits(txs) > BLOCK_RESOURCE_LIMIT then
                                Err(ResourceLimitExceeded(BlockUnits(txs))) else Ok(built))
  {
    hide TransactAll, RootsOf;
    CfgAllKept(n.world.(cfg := n.world.cfg.(height := height)), txs);
  }

  /** A block drained from a mempool within the default limit is accepted by every node in the proposer's state. */
  lemma DrainedBlockApplies(n: Node, height: nat, sorted: seq<Transaction>, limit: nat, timestamp: nat, proposer: Id,
                            certificate: string)
    requires limit <= BLOCK_RESOURCE_LIMIT
    ensures var txs := Mempool.Select(sorted, limit).0;
            var (block, built) := Build(n, height, txs, timestamp, proposer, certificate);
            Apply(n, block) == Ok(built)
  {
    hide Build, Apply, Mempool.Select;
    Mempool.SelectFacts(sorted, limit);
    ApplyReproduces(n, height, Mempool.Select(sorted, limit).0, timestamp, proposer, certificate);
  }

  /** What the mempool admits the next block executes: it is not rejected, and only the call itself can revert it. */
  lemma AdmittedRuns(w: World, tx: Transaction)
    requires Mempool.Admissible(Mempool.ChainView(w.cfg.chainId, w.cfg.height, w.nonces), tx)
             && tx.budget >= TransactionUnits(tx)
    ensures var cfg := w.cfg.(height := w.cfg.height + 1);
            var outcome, call := Transact(w.(cfg := cfg), tx).1, ExecuteCall(cfg, w.store, tx, tx.sender, []);
            if call.Ok? then outcome == Committed(call.value.1) else outcome == Reverted(call.error)
  {
    hide ExecuteCall;
  }

  lemma {:induction false} CfgAllKept(w: World, txs: seq<Transaction>)
    ensures TransactAll(w, txs).0.cfg == w.cfg
    decreases |txs|
  {
    hide Transact, RootsOf;
    if txs != [] {
      CfgAllKept(w, txs[..|txs| - 1]);
      CfgKept(TransactAll(w, txs[..|txs| - 1]).0, txs[|txs| - 1]);
    }
  }

  /** Nodes that accept the same block are in the same state afterwards, whatever state each was in before. */
  lemma AcceptedBlockPinsState(a: Node, b: Node, block: Block)
    requires Sound(a.world) && Sound(b.world) && SameTables(a.world, b.world)
    requires Apply(a, block).Ok? && Apply(b, block).Ok?
    ensures Apply(a, block) == Apply(b, block)
  {
    hide Sound, TransactAll, RootsOf;
    var startA, startB := a.world.(cfg := a.world.cfg.(height := block.header.height)),
      b.world.(cfg := b.world.cfg.(height := block.header.height));
    ActSound(a.world, NextBlock(block.header.height));
    ActSound(b.world, NextBlock(block.header.height));
    TransactAllSound(startA, block.transactions);
    TransactAllSound(startB, block.transactions);
    RootsPinState(TransactAll(startA, block.transactions).0, TransactAll(startB, block.transactions).0);
  }

  // ---------------------------------------------------------------------- nonces

  /** A transaction is executed only if its nonce was unused, and then the nonce is used. */
  lemma NonceGuards(w: World, tx: Transaction)
    ensures w.nonces <= Transact(w, tx).0.nonces
    ensures !Transact(w, tx).1.Rejected? ==>
              (tx.sender, tx.nonce) !in w.nonces && (tx.sender, tx.nonce) in Transact(w, tx).0.nonces
  {
    hide ExecuteCall;
  }

  lemma {:induction false} NoncesUsed(w: World, txs: seq<Transaction>)
    ensures var (w', receipts) := TransactAll(w, txs);
            && |receipts| == |txs| && w.nonces <= w'.nonces
            && forall i | 0 <= i < |txs|
                 && !receipts[i].outcome.Rejected? :: (txs[i].sender, txs[i].nonce) in w'.nonces - w.nonces
    decreases |txs|
  {
    hide Transact, RootsOf;
    if txs != [] {
      var last := |txs| - 1;
      NoncesUsed(w, txs[..last]);
      NonceGuards(TransactAll(w, txs[..last]).0, txs[last]);
    }
  }

  /** Over any sequence of transactions each sender and nonce is executed at most once. */
  lemma {:induction false} ExecutedOnce(w: World, txs: seq<Transaction>, i: nat, j: nat)
    requires i < j < |txs| && (txs[i].sender, txs[i].nonce) == (txs[j].sender, txs[j].nonce)
    requires |TransactAll(w, txs).1| == |txs| && !TransactAll(w, txs).1[i].outcome.Rejected?
    ensures TransactAll(w, txs).1[j].outcome.Rejected?
    decreases |txs|
  {
    hide Transact, RootsOf;
    var last := |txs| - 1;
    NoncesUsed(w, txs[..last]);
    if j < last {
      ExecutedOnce(w, txs[..last], i, j);
    } else {
      NonceGuards(TransactAll(w, txs[..last]).0, txs[last]);
    }
  }

  lemma ActNonces(w: World, a: Action)
    ensures w.nonces <= Act(w, a).nonces
  {
    hide Transact;
    if a.Submit? { NonceGuards(w, a.tx); }
  }

  lemma {:induction false} RunNonces(w: World, actions: seq<Action>)
    ensures w.nonces <= Run(w, actions).nonces
    decreases |actions|
  {
    hide Act;
    if actions != [] {
      ActNonces(w, actions[0]);
      RunNonces(Act(w, actions[0]), actions[1..]);
    }
  }

  /**
    Over any run, blocks and deployments in between included, a sender and nonce once executed are rejected from then
    on.
  */
  lemma RunExecutesOnce(w: World, actions: seq<Action>, i: nat, j: nat)
    requires i < j < |actions| && actions[i].Submit? && actions[j].Submit?
    requires (actions[i].tx.sender, actions[i].tx.nonce) == (actions[j].tx.sender, actions[j].tx.nonce)
    requires !Transact(Run(w, actions[..i]), actions[i].tx).1.Rejected?
    ensures Transact(Run(w, actions[..j]), actions[j].tx).1.Rejected?
  {
    hide Transact, Run;
    var before, after := Run(w, actions[..i]), Run(w, actions[..j]);
    NonceGuards(before, actions[i].tx);
    assert actions[..j][..i] == actions[..i];
    RunSplits(w, actions[..j], i);
    RunFirst(before, actions[..j][i..]);
    RunNonces(Act(before, actions[i]), actions[..j][i..][1..]);
    NonceGuards(after, actions[j].tx);
  }

  lemma RunFirst(w: World, actions: seq<Action>)
    requires actions != []
    ensures Run(w, actions) == Run(Act(w, actions[0]), actions[1..])
  {
  }

  // ------------------------------------------------------------------- the object

  /** A node as it runs: fields updated in place, with a checkpoint of each around every call. */
  class DeTTaState {
    ghost var settings: Config
    ghost var contracts: map<Id, Kind>
    ghost var modules: map<string, Deployed>
    ghost var paused: set<Id>
    ghost var storage: Storage
    ghost var registry: map<GrantKey, Grant>
    ghost var certificates: set<string>
    ghost var outboundIds: set<string>
    ghost var outbox: seq<Message>
    ghost var events: seq<Event>
    ghost var nonces: set<(Id, nat)>
    ghost var tip: Tip

    ghost function Settings(): Config
      reads this
    {
      settings.(contracts := contracts, modules := modules, paused := paused)
    }

    ghost function Contents(): Store
      reads this
    {
      Store(storage, registry, certificates, outboundIds, outbox, events)
    }

    ghost function View(): Node
      reads this
    {
      Node(World(Settings(), Contents(), nonces), tip)
    }

    ghost constructor Clone(n: Node)
      ensures View() == n
    {
      var cfg, s := n.world.cfg, n.world.store;
      settings, contracts, modules, paused := cfg, cfg.contracts, cfg.modules, cfg.paused;
      storage, registry, certificates, outboundIds, outbox, events :=
        s.storage, s.registry, s.certificates, s.outboundIds, s.outbox, s.events;
      nonces, tip := n.world.nonces, n.tip;
    }

    /** A call that errs may leave anything behind, in each of the fields it may write. */
    ghost method CallTarget(tx: Transaction) returns (r: Result<Ret, Error>)
      modifies this`contracts, this`modules, this`paused
      modifies this`storage, this`registry, this`certificates, this`outboundIds, this`outbox, this`events
      ensures r.Ok? ==> ExecuteCall(old(Settings()), old(Contents()), tx, tx.sender, []) == Ok((Contents(), r.value))
                        && Settings() == old(Settings())
      ensures r.Err? ==> ExecuteCall(old(Settings()), old(Contents()), tx, tx.sender, []) == Err(r.error)
    {
      match ExecuteCall(Settings(), Contents(), tx, tx.sender, [])
      case Ok(called) =>
        var s := called.0;
        storage, registry, certificates, outboundIds, outbox, events :=
          s.storage, s.registry, s.certificates, s.outboundIds, s.outbox, s.events;
        r := Ok(called.1);
      case Err(error) =>
        contracts, modules, paused := *, *, *;
        storage, registry, certificates, outboundIds, outbox, events := *, *, *, *, *, *;
        r := Err(error);
    }

    /** Every field a call may write is as before. */
    twostate predicate Restored()
      reads this
    {
      && contracts == old(contracts) && modules == old(modules) && paused == old(paused) && storage == old(storage)
      && registry == old(registry) && certificates == old(certificates) && outboundIds == old(outboundIds)
      && outbox == old(outbox) && events == old(events)
    }

    /** The call between a checkpoint and, if it errs, a rollback field by field. */
    ghost method Attempt(tx: Transaction) returns (r: Result<Ret, Error>)
      modifies this`contracts, this`modules, this`paused
      modifies this`storage, this`registry, this`certificates, this`outboundIds, this`outbox, this`events
      ensures r.Ok? ==> ExecuteCall(old(Settings()), old(Contents()), tx, tx.sender, []) == Ok((Contents(), r.value))
                        && Settings() == old(Settings())
      ensures r.Err? ==> ExecuteCall(old(Settings()), old(Contents()), tx, tx.sender, []) == Err(r.error) && Restored()
    {
      hide ExecuteCall;
      var savedStorage, savedRegistry, savedEvents, savedCertificates := storage, registry, events, certificates;
      var savedPaused, savedContracts, savedModules := paused, contracts, modules;
      var savedIds, savedOutbox := outboundIds, outbox;
      r := CallTarget(tx);
      if r.Err? {
        contracts, modules := savedContracts, savedModules;
        storage, registry, events, certificates := savedStorage, savedRegistry, savedEvents, savedCertificates;
        paused, outboundIds, outbox := savedPaused, savedIds, savedOutbox;
      }
    }

    /** A transaction that does not commit leaves no trace but its nonce: every other field is as before. */
    ghost method ApplyTransaction(tx: Transaction) returns (receipt: Receipt)
      modifies this`contracts, this`modules, this`paused, this`nonces
      modifies this`storage, this`registry, this`certificates, this`outboundIds, this`outbox, this`events
      ensures View().world == Transact(old(View().world), tx).0 && receipt == ReceiptOf(old(View().world), tx)
      ensures !receipt.outcome.Committed? ==> Restored()
    {
      hide ExecuteCall, RootsOf;
      var before := View().world;
      if tx.chainId != settings.chainId {
        return Receipt(tx.txHash, Rejected(Error.ChainMismatch), 0, RootsOf(before));
      }
      if !tx.signatureOk { return Receipt(tx.txHash, Rejected(InvalidSignature), 0, RootsOf(before)); }
      if tx.validUntil.Some? && tx.validUntil.value < settings.height {
        return Receipt(tx.txHash, Rejected(TransactionExpired), 0, RootsOf(before));
      }
      if (tx.sender, tx.nonce) in nonces { return Receipt(tx.txHash, Rejected(NonceReplay), 0, RootsOf(before)); }
      var units := TransactionUnits(tx);
      nonces := nonces + {(tx.sender, tx.nonce)};
      if tx.budget < units { return Receipt(tx.txHash, Reverted(OutOfGas), units, RootsOf(View().world)); }
      var result := Attempt(tx);
      receipt := Receipt(tx.txHash, if result.Ok? then Committed(result.value)
                         else Reverted(result.error), units, RootsOf(View().world));
    }

    /** Applies transactions one after the other. */
    ghost method ApplyAll(txs: seq<Transaction>) returns (receipts: seq<Receipt>)
      modifies this
      ensures (View().world, receipts) == TransactAll(old(View().world), txs) && tip == old(tip)
    {
      hide Transact, RootsOf;
      receipts := [];
      assert txs[..0] == [];
      for i := 0 to |txs|
        invariant (View().world, receipts) == TransactAll(old(View().world), txs[..i]) && tip == old(tip)
      {
        assert txs[..i + 1][..i] == txs[..i];
        var receipt := ApplyTransaction(txs[i]);
        receipts := receipts + [receipt];
      }
      assert txs[..|txs|] == txs;
    }

    ghost method BuildBlock(height: nat, txs: seq<Transaction>, timestamp: nat, proposer: Id, certificate: string)
      returns (block: Block, working: DeTTaState)
      ensures fresh(working) && (block, working.View()) == Build(View(), height, txs, timestamp, proposer, certificate)
    {
      hide TransactAll, RootsOf;
      working := new DeTTaState.Clone(View());
      working.settings := working.settings.(height := height);
      var receipts := working.ApplyAll(txs);
      var header := Header(settings.chainId, height, tip, Merkle.Root(txs), Merkle.Root(receipts),
                           RootsOf(working.View().world), timestamp,
                           proposer, certificate);
      block := Block(header, txs, receipts);
      working.tip := After(header);
    }

    /** Takes over another node's state. */
    ghost method Adopt(n: Node)
      modifies this
      ensures View() == n
    {
      var cfg, s := n.world.cfg, n.world.store;
      settings, contracts, modules, paused := cfg, cfg.contracts, cfg.modules, cfg.paused;
      storage, registry, certificates, outboundIds, outbox, events :=
        s.storage, s.registry, s.certificates, s.outboundIds, s.outbox, s.events;
      nonces, tip := n.world.nonces, n.tip;
    }

    /** A block that is not accepted changes nothing. */
    ghost method ApplyBlock(block: Block) returns (r: Result<(), BlockError>)
      modifies this
      ensures r.Ok? ==> Apply(old(View()), block) == Ok(View())
      ensures r.Err? ==> Apply(old(View()), block) == Err(r.error) && View() == old(View())
    {
      hide TransactAll, RootsOf;
      if block.header.chainId != settings.chainId { return Err(BlockError.ChainMismatch); }
      var units := BlockUnits(block.transactions);
      if units > BLOCK_RESOURCE_LIMIT { return Err(ResourceLimitExceeded(units)); }
      if block.header.previous != tip { return Err(PreviousBlockMismatch); }
      if block.header.txRoot != Merkle.Root(block.transactions) { return Err(TxRootMismatch); }
      var working := new DeTTaState.Clone(View());
      working.settings := working.settings.(height := block.header.height);
      var receipts := working.ApplyAll(block.transactions);
      if receipts != block.receipts { return Err(ReceiptMismatch); }
      if block.header.receiptRoot != Merkle.Root(receipts) { return Err(ReceiptRootMismatch); }
      if block.header.roots != RootsOf(working.View().world) { return Err(RootMismatch); }
      working.tip := After(block.header);
      Adopt(working.View());
      r := Ok(());
    }
  }
}
