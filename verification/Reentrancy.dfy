/** The call stack and its guard, and what the guard is for: a running contract's records stay as it read them. */
module Reentrancy {
  import opened Common
  import opened AspectIr
  import opened Ledger
  import opened Executor
  import opened Steps
  import opened Linearize

  datatype CallFrame = CallFrame(txSender: Id, msgSender: Id, contract: Id, selector: Method)

  /** A call and the calls it goes on to make; `fails` when its own code errs after them. */
  datatype CallTree = CallTree(contract: Id, selector: Method, sender: Id, nested: seq<CallTree>, fails: bool)

  /** The whole tree runs without error and without entering an active contract. */
  predicate Runs(t: CallTree, active: set<Id>) {
    t.contract !in active && !t.fails && forall i | 0 <= i < |t.nested| :: Runs(t.nested[i], active + {t.contract})
  }

  function ContractsOf(frames: seq<CallFrame>): set<Id> {
    set i | 0 <= i < |frames| :: frames[i].contract
  }

  predicate NoContractTwice(frames: seq<CallFrame>) {
    forall i, j | 0 <= i < j < |frames| :: frames[i].contract != frames[j].contract
  }

  lemma ContractsExtend(frames: seq<CallFrame>, f: CallFrame)
    ensures ContractsOf(frames + [f]) == ContractsOf(frames) + {f.contract}
  {
    var longer := frames + [f];
    forall c | c in ContractsOf(frames) ensures c in ContractsOf(longer) {
      var i :| 0 <= i < |frames| && frames[i].contract == c;
      assert longer[i] == frames[i];
    }
    assert longer[|frames|] == f;
  }

  class CallContext {
    const txSender: Id
    var stack: seq<CallFrame>
    var active: set<Id>

    predicate Valid()
      reads this
    {
      NoContractTwice(stack) && active == ContractsOf(stack)
    }

    constructor (txSender: Id)
      ensures Valid() && stack == [] && this.txSender == txSender
    {
      this.txSender := txSender;
      stack, active := [], {};
    }

    method Enter(contract: Id, selector: Method, msgSender: Id) returns (r: Result<(), Error>)
      requires Valid()
      modifies this
      ensures Valid() && (r.Ok? <==> contract !in old(active))
      ensures r.Ok? ==> stack == old(stack) + [CallFrame(txSender, msgSender, contract, selector)]
                        && active == old(active) + {contract}
      ensures r.Err? ==> r.error == ReentrancyViolation && stack == old(stack) && active == old(active)
    {
      if contract in active { return Err(ReentrancyViolation); }
      active := active + {contract};
      stack := stack + [CallFrame(txSender, msgSender, contract, selector)];
      ContractsExtend(old(stack), CallFrame(txSender, msgSender, contract, selector));
      r := Ok(());
    }

    method Exit()
      requires Valid()
      modifies this
      ensures Valid()
      ensures stack == (if old(stack) == [] then [] else old(stack)[..|old(stack)| - 1])
    {
      if stack != [] {
        ghost var last := |stack| - 1;
        assert stack == stack[..last] + [stack[last]];
        ContractsExtend(stack[..last], stack[last]);
        active := active - {stack[|stack| - 1].contract};
        stack := stack[..|stack| - 1];
      }
    }

    /** Runs a call tree; however it ends, the stack and the active set are as before. */
    method Execute(t: CallTree) returns (ok: bool)
      requires Valid()
      modifies this
      ensures Valid() && stack == old(stack) && active == old(active)
      ensures ok == Runs(t, active)
      decreases t
    {
      var entered := Enter(t.contract, t.selector, t.sender);
      if entered.Err? { return false; }
      ghost var inside, activeInside := stack, active;
      ok := true;
      var i := 0;
      while ok && i < |t.nested|
        invariant 0 <= i <= |t.nested| && Valid() && stack == inside && active == activeInside
        invariant ok ==> forall j | 0 <= j < i :: Runs(t.nested[j], activeInside)
        invariant !ok ==> exists j :: 0 <= j < |t.nested| && !Runs(t.nested[j], activeInside)
        decreases |t.nested| - i, ok
      {
        ok := Execute(t.nested[i]);
        assert ok == Runs(t.nested[i], activeInside);
        i := i + 1;
      }
      ok := ok && !t.fails;
      Exit();
      assert inside[..|inside| - 1] == old(stack);
    }
  }

  // ------------------------------------------------------------------- isolation

  /** No call, however deep it goes, changes a key of a non-token contract that is waiting on the stack. */
  lemma CallIsolated(cfg: Config, s: Store, tx: Transaction, sender: Id, stack: seq<Id>, c: Id)
    requires WellFormed(cfg) && Indexed(s) && ExecuteCall(cfg, s, tx, sender, stack).Ok? && c in stack
             && !IsToken(cfg, c)
    ensures SameOwn(s.storage, ExecuteCall(cfg, s, tx, sender, stack).value.0.storage, c)
  {
    hide ExecuteCall, Linear, SameOwn;
    var log := CallSteps(cfg, s, tx, sender, stack);
    LinearFrame(cfg, s, log, ExecuteCall(cfg, s, tx, sender, stack).value.0, stack, c);
  }

  /** Nor does an asset transfer, even on an aspect ledger, which is a call. */
  lemma TransferIsolated(cfg: Config, s: Store, tx: Transaction, ledger: LedgerRef, from: Id, to: Id, asset: Id,
                         amount: nat, stack: seq<Id>, c: Id)
    requires WellFormed(cfg) && Indexed(s) && ResolveLedger(cfg, s, asset) == Ok(ledger) && c in stack
             && !IsToken(cfg, c)
    requires TransferAsset(cfg, s, tx, ledger, from, to, asset, amount, stack).Ok?
    ensures SameOwn(s.storage, TransferAsset(cfg, s, tx, ledger, from, to, asset, amount, stack).value.storage, c)
  {
    hide TransferAsset, ResolveLedger, Linear, SameOwn;
    ResolvedIsToken(cfg, s, asset);
    var log := TransferSteps(cfg, s, tx, ledger, from, to, asset, amount, stack);
    LinearFrame(cfg, s, log, TransferAsset(cfg, s, tx, ledger, from, to, asset, amount, stack).value, stack, c);
  }

  /**
    A pool's swap computes its output from reserves that are still the recorded ones when it writes
    them back, whatever the two transfers did.
  */
  lemma SwapWritesBackCurrent(cfg: Config, s: Store, tx: Transaction, sender: Id, kind: Kind, stack: seq<Id>)
    returns (s2: Store, out: nat, fee: nat)
    requires WellFormed(cfg) && Indexed(s) && Running(cfg, tx.target, kind, stack) && kind.AmmPool?
             && PoolSwap(cfg, s, tx, sender, kind, stack).Ok?
    ensures |tx.args| == 3 && tx.args[0].AssetArg? && tx.args[1].AmountArg?
    ensures var pool, input, output, amountIn :=
              tx.target, tx.args[0].id, OutputOf(kind, tx.args[0].id), tx.args[1].amount;
            && SameOwn(s.storage, s2.storage, pool)
            && Quote(Get(s2.storage, Reserve(pool, input)), Get(s2.storage, Reserve(pool, output)), amountIn,
                     kind.feeBps) == Ok((out, fee))
            && PoolSwap(cfg, s, tx, sender, kind, stack)
               == SettleSwap(s2,
                             Frame(pool,
                                   {Reserve(pool, input), Reserve(pool, output),
                                    AmmFeeCollected(pool, input)}), pool, input, output,
                             Get(s2.storage, Reserve(pool, input))
                               + amountIn, SaturatingSub(Get(s2.storage, Reserve(pool, output)),
                                                         out), fee, out, tx.txHash)
  {
    hide PoolSwap, Quote, SettleSwap, TransferAsset, ResolveLedger, NativeLedgers, Linear;
    var x, y, s1;
    x, y, out, fee, s1, s2 := SwapParts(cfg, s, tx, sender, kind, stack);
    var pool, input, amountIn := tx.target, tx.args[0].id, tx.args[1].amount;
    var output := OutputOf(kind, input);
    ResolvedIsToken(cfg, s, input);
    ResolvedIsToken(cfg, s, output);
    var log := TwoTransfers(cfg, s, tx, x, y, sender, pool, input, amountIn, pool, sender, output, out, s1, s2, kind,
                            stack);
  }

  lemma SameOwnSnapshot(m: Module, a: Storage, b: Storage, contract: Id, bundle: string)
    requires SameOwn(a, b, contract)
    ensures SnapshotOf(m, a, contract, bundle) == SnapshotOf(m, b, contract, bundle)
  {
    var ks := OwnEntries(m, a, contract, bundle);
    assert ks == OwnEntries(m, b, contract, bundle);
    assert forall k | k in ks :: a[k] == Get(a, k) && b[k] == Get(b, k) && a[k] == b[k];
  }

  /** What an aspect method read from its snapshot is still what is stored after it has called another contract. */
  lemma SnapshotStaysCurrent(cfg: Config, s: Store, tx: Transaction, sender: Id, stack: seq<Id>, m: Module,
                             contract: Id, bundle: string)
    requires WellFormed(cfg) && Indexed(s) && ExecuteCall(cfg, s, tx, sender, stack).Ok? && contract in stack
             && !IsToken(cfg, contract)
    ensures SnapshotOf(m, ExecuteCall(cfg, s, tx, sender, stack).value.0.storage, contract, bundle)
              == SnapshotOf(m, s.storage, contract, bundle)
  {
    hide ExecuteCall, SnapshotOf, SameOwn;
    CallIsolated(cfg, s, tx, sender, stack, contract);
    SameOwnSnapshot(m, s.storage, ExecuteCall(cfg, s, tx, sender, stack).value.0.storage, contract, bundle);
  }
}
