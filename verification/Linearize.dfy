/**
  Reentrancy isolation.  Every committed call tree is matched by a flat log of atomic
  steps none of which acts for a contract that was already on the stack; hence what a
  contract read before a nested call is still current when it writes back.
*/
module Linearize {
  import opened Common
  import opened Evaluator
  import opened Ledger
  import opened Executor
  import opened Steps

  /** `log` leads from `s` to `s'` without acting for a contract on the stack. */
  ghost predicate Linear(cfg: Config, s: Store, log: seq<Step>, s': Store, stack: seq<Id>) {
    RunSteps(cfg, s, log) == Ok(s') && Respects(log, stack) && Guarded(cfg, log)
  }

  /** The contract at the top of the stack is running, entered once, and is of this kind. */
  ghost predicate Running(cfg: Config, c: Id, kind: Kind, stack: seq<Id>) {
    stack != [] && stack[|stack| - 1] == c && c !in Outer(stack) && c in cfg.contracts && cfg.contracts[c] == kind
  }

  function Outer(stack: seq<Id>): seq<Id> {
    if stack == [] then [] else stack[..|stack| - 1]
  }

  lemma LinearNil(cfg: Config, s: Store, stack: seq<Id>)
    ensures Linear(cfg, s, [], s, stack)
  {
  }

  lemma LinearJoin(cfg: Config, s: Store, a: seq<Step>, s1: Store, b: seq<Step>, s2: Store, stack: seq<Id>)
    requires Linear(cfg, s, a, s1, stack) && Linear(cfg, s1, b, s2, stack)
    ensures Linear(cfg, s, a + b, s2, stack)
  {
    RunJoin(cfg, s, a, s1, b);
  }

  lemma LinearStep(cfg: Config, s: Store, a: seq<Step>, s1: Store, step: Step, s2: Store, stack: seq<Id>)
    requires Linear(cfg, s, a, s1, stack) && ApplyStep(cfg, s1, step) == Ok(s2)
    requires Actor(step).Some? ==> Actor(step).value !in stack
    requires step.Append? && !step.guarded ==> Exposed(cfg, step.message)
    ensures Linear(cfg, s, a + [step], s2, stack)
  {
    RunExtend(cfg, s, a, s1, step);
  }

  lemma LinearOuter(cfg: Config, s: Store, a: seq<Step>, s1: Store, stack: seq<Id>)
    requires Linear(cfg, s, a, s1, stack)
    ensures Linear(cfg, s, a, s1, Outer(stack))
  {
    assert forall c | c in Outer(stack) :: c in stack;
  }

  /** Nothing owned by a non-token contract on the stack has changed. */
  lemma LinearFrame(cfg: Config, s: Store, log: seq<Step>, s1: Store, stack: seq<Id>, c: Id)
    requires Linear(cfg, s, log, s1, stack) && c in stack && !IsToken(cfg, c)
    ensures SameOwn(s.storage, s1.storage, c)
  {
    LogFrame(cfg, s, log, c);
  }

  lemma LinearIndexed(cfg: Config, s: Store, log: seq<Step>, s1: Store, stack: seq<Id>)
    requires Linear(cfg, s, log, s1, stack) && Indexed(s)
    ensures Indexed(s1)
  {
    LogIndexed(cfg, s, log);
  }

  lemma LinearQueued(cfg: Config, s: Store, log: seq<Step>, s1: Store, stack: seq<Id>, c: Id, id: string)
    requires Linear(cfg, s, log, s1, stack) && c in stack
    ensures Queued(s1, c, id) <==> Queued(s, c, id)
  {
    LogQueued(cfg, s, log, c, id);
  }

  lemma OwnStep(cfg: Config, s: Store, a: seq<Step>, s1: Store, c: Id, k: StateKey, v: nat, stack: seq<Id>)
    requires Linear(cfg, s, a, s1, stack) && k.contract == c && Plain(k) && c !in stack && c in cfg.contracts
    ensures Linear(cfg, s, a + [Own(c, k, v)], Put(s1, k, v), stack)
  {
    LinearStep(cfg, s, a, s1, Own(c, k, v), Put(s1, k, v), stack);
  }

  lemma NoteStep(cfg: Config, s: Store, a: seq<Step>, s1: Store, c: Id, txHash: string, name: string, stack: seq<Id>)
    requires Linear(cfg, s, a, s1, stack) && c in cfg.contracts
    ensures Linear(cfg, s, a + [Note(c, txHash, name)], Emit(s1, c, txHash, Notice(name)), stack)
  {
    LinearStep(cfg, s, a, s1, Note(c, txHash, name), Emit(s1, c, txHash, Notice(name)), stack);
  }

  lemma ResolvedIsToken(cfg: Config, s: Store, asset: Id)
    requires ResolveLedger(cfg, s, asset).Ok?
    ensures var l := ResolveLedger(cfg, s, asset).value;
            if l.Native? then l.token in NativeLedgers(cfg, s.storage, asset) && IsToken(cfg, l.token)
            else AspectLedger(cfg, asset)
  {
  }

  lemma NativeTransferKeepsIds(cfg: Config, s: Store, tx: Transaction, ledger: LedgerRef, from: Id, to: Id, asset: Id,
                               amount: nat, stack: seq<Id>)
    requires ledger.Native? && TransferAsset(cfg, s, tx, ledger, from, to, asset, amount, stack).Ok?
    ensures TransferAsset(cfg, s, tx, ledger, from, to, asset, amount, stack).value.outboundIds == s.outboundIds
  {
    TransferWrites(s, ledger.token, from, to, asset, amount);
  }

  // ------------------------------------------------------------------- dispatcher

  /** The linearization of a call. */
  lemma {:induction false} CallSteps(cfg: Config, s: Store, tx: Transaction, sender: Id, stack: seq<Id>)
    returns (log: seq<Step>)
    requires WellFormed(cfg) && Indexed(s) && ExecuteCall(cfg, s, tx, sender, stack).Ok?
    ensures Linear(cfg, s, log, ExecuteCall(cfg, s, tx, sender, stack).value.0, stack)
    decreases Idle(cfg, stack), 0
  {
    var inner := stack + [tx.target];
    assert tx.target in Idle(cfg, stack) && tx.target !in Idle(cfg, inner);
    assert Idle(cfg, inner) <= Idle(cfg, stack);
    assert Outer(inner) == stack;
    log := DispatchSteps(cfg, s, tx, sender, cfg.contracts[tx.target], inner);
  }

  lemma {:induction false} DispatchSteps(cfg: Config, s: Store, tx: Transaction, sender: Id, kind: Kind, stack: seq<Id>)
    returns (log: seq<Step>)
    requires WellFormed(cfg) && Indexed(s) && Running(cfg, tx.target, kind, stack)
             && Dispatch(cfg, s, tx, sender, kind, stack).Ok?
    ensures Linear(cfg, s, log, Dispatch(cfg, s, tx, sender, kind, stack).value.0, Outer(stack))
    decreases Idle(cfg, stack), 4
  {
    match kind
    case Token =>
      if tx.selector.Transfer? { log := TokenTransferSteps(cfg, s, tx, sender, stack); }
      else if tx.selector.Approve? { log := ApproveSteps(cfg, s, tx, sender, stack); }
      else if tx.selector.TransferFrom? { log := TokenTransferFromSteps(cfg, s, tx, sender, stack); }
      else { log := PermitSteps(cfg, s, tx, stack); }
    case AmmPool(_, _, _) =>
      if tx.selector.AddLiquidity? { log := AddLiquiditySteps(cfg, s, tx, sender, kind, stack); }
      else { log := SwapSteps(cfg, s, tx, sender, kind, stack); }
    case Oracle(asset, maxAge) => log := PriceSteps(cfg, s, tx, sender, asset, maxAge, stack);
    case Bridge(source) =>
      if tx.selector.QueueBridgeMessage? { log := QueueSteps(cfg, s, tx, sender, kind, stack); }
      else { log := RedeemSteps(cfg, s, tx, sender, kind, stack); }
    case LendingVault(_, _, _, _, _, _, _) =>
      if tx.selector.DepositCollateral? { log := DepositSteps(cfg, s, tx, kind, stack); }
      else if tx.selector.Borrow? { log := BorrowSteps(cfg, s, tx, sender, kind, stack); }
      else { log := LiquidateSteps(cfg, s, tx, sender, kind, stack); }
    case Staking(_, _, _, _) =>
      if tx.selector.Stake? { log := StakeSteps(cfg, s, tx, sender, kind, stack); }
      else if tx.selector.Unstake? { log := UnstakeSteps(cfg, s, tx, sender, kind, stack); }
      else if tx.selector.RequestUnstake? { log := RequestSteps(cfg, s, tx, sender, kind, stack); }
      else if tx.selector.CompleteUnstake? { log := CompleteSteps(cfg, s, tx, sender, kind, stack); }
      else { log := ClaimSteps(cfg, s, tx, sender, kind, stack); }
    case Router(token) =>
      var child := tx.(target := token, selector := TransferFrom, signatureOk := true);
      log := CallSteps(cfg, s, child, tx.target, stack);
      LinearOuter(cfg, s, log, ExecuteCall(cfg, s, child, tx.target, stack).value.0, stack);
    case Aspect(hash, bundle) => log := AspectSteps(cfg, s, tx, sender, kind, stack);
  }

  /** An asset transfer made by a running contract; on an aspect ledger this is a nested call. */
  lemma {:induction false} TransferSteps(cfg: Config, s: Store, tx: Transaction, ledger: LedgerRef, from: Id, to: Id,
                                         asset: Id, amount: nat,
                                         stack: seq<Id>) returns (log: seq<Step>)
    requires WellFormed(cfg) && Indexed(s) && (ledger.Native? ==> IsToken(cfg, ledger.token))
    requires TransferAsset(cfg, s, tx, ledger, from, to, asset, amount, stack).Ok?
    ensures Linear(cfg, s, log, TransferAsset(cfg, s, tx, ledger, from, to, asset, amount, stack).value, stack)
    decreases Idle(cfg, stack), 1
  {
    match ledger
    case Native(token) =>
      LinearNil(cfg, s, stack);
      log := [] + [Move(token, from, to, asset, amount)];
      LinearStep(cfg, s, [], s, Move(token, from, to, asset, amount),
                 TransferNative(s, token, from, to, asset, amount).value, stack);
    case AspectToken(contract) =>
      var child := tx.(txHash := tx.txHash + ":asset-transfer:" + contract + ":" + from + ":" + to,
                       sender := from, target := contract, selector := Other(ERC20_TRANSFER),
                       args := [PrincipalArg(to), AmountArg(amount)], signatureOk := true);
      log := CallSteps(cfg, s, child, from, stack);
  }

  // --------------------------------------------------------------- token and oracle

  lemma TokenTransferSteps(cfg: Config, s: Store, tx: Transaction, sender: Id, stack: seq<Id>) returns (log: seq<Step>)
    requires Running(cfg, tx.target, Token, stack) && TokenTransfer(cfg, s, tx, sender).Ok?
    ensures Linear(cfg, s, log, TokenTransfer(cfg, s, tx, sender).value.0, Outer(stack))
  {
    var step := Move(tx.target, sender, tx.args[0].id, tx.args[1].id, tx.args[2].amount);
    var s1 := ApplyStep(cfg, s, step).value;
    LinearNil(cfg, s, Outer(stack));
    LinearStep(cfg, s, [], s, step, s1, Outer(stack));
    NoteStep(cfg, s, [] + [step], s1, tx.target, tx.txHash, "transfer", Outer(stack));
    log := [] + [step] + [Note(tx.target, tx.txHash, "transfer")];
  }

  lemma ApproveSteps(cfg: Config, s: Store, tx: Transaction, sender: Id, stack: seq<Id>) returns (log: seq<Step>)
    requires Running(cfg, tx.target, Token, stack) && TokenApprove(cfg, s, tx, sender).Ok?
    ensures Linear(cfg, s, log, TokenApprove(cfg, s, tx, sender).value.0, Outer(stack))
  {
    var spender := tx.args[0].id;
    var step := SetGrant(Allowance(tx.target, sender, spender, tx.args[1].id),
                         Grant(spender, true, false, Some(tx.args[2].amount), 0));
    var s1 := ApplyStep(cfg, s, step).value;
    LinearNil(cfg, s, Outer(stack));
    LinearStep(cfg, s, [], s, step, s1, Outer(stack));
    NoteStep(cfg, s, [] + [step], s1, tx.target, tx.txHash, "approval", Outer(stack));
    log := [] + [step] + [Note(tx.target, tx.txHash, "approval")];
  }

  lemma TokenTransferFromSteps(cfg: Config, s: Store, tx: Transaction, sender: Id, stack: seq<Id>)
    returns (log: seq<Step>)
    requires Running(cfg, tx.target, Token, stack) && TokenTransferFrom(cfg, s, tx, sender).Ok?
    ensures Linear(cfg, s, log, TokenTransferFrom(cfg, s, tx, sender).value.0, Outer(stack))
  {
    var owner, to, asset, amount := tx.args[0].id, tx.args[1].id, tx.args[2].id, tx.args[3].amount;
    var key := Allowance(tx.target, owner, sender, asset);
    var s1 := ConsumeAllowance(s, tx.target, owner, sender, asset, amount).value;
    var use := SetGrant(key, s1.registry[key]);
    LinearNil(cfg, s, Outer(stack));
    LinearStep(cfg, s, [], s, use, s1, Outer(stack));
    var move := Move(tx.target, owner, to, asset, amount);
    var s2 := ApplyStep(cfg, s1, move).value;
    LinearStep(cfg, s, [] + [use], s1, move, s2, Outer(stack));
    NoteStep(cfg, s, [] + [use] + [move], s2, tx.target, tx.txHash, "transfer", Outer(stack));
    log := [] + [use] + [move] + [Note(tx.target, tx.txHash, "transfer")];
  }

  lemma PermitSteps(cfg: Config, s: Store, tx: Transaction, stack: seq<Id>) returns (log: seq<Step>)
    requires Running(cfg, tx.target, Token, stack) && TokenPermit(cfg, s, tx).Ok?
    ensures Linear(cfg, s, log, TokenPermit(cfg, s, tx).value.0, Outer(stack))
  {
    var owner, spender, asset, amount := tx.args[0].id, tx.args[1].id, tx.args[2].id, tx.args[3].amount;
    var nonce := PermitNonce(tx.args[4].text, cfg.chainId, tx.target, owner, spender, asset, amount).value;
    var use := UseCertificate(nonce);
    var s1 := s.(certificates := s.certificates + {nonce});
    LinearNil(cfg, s, Outer(stack));
    LinearStep(cfg, s, [], s, use, s1, Outer(stack));
    var grant := SetGrant(Allowance(tx.target, owner, spender, asset), Grant(spender, true, false, Some(amount), 0));
    var s2 := ApplyStep(cfg, s1, grant).value;
    LinearStep(cfg, s, [] + [use], s1, grant, s2, Outer(stack));
    NoteStep(cfg, s, [] + [use] + [grant], s2, tx.target, tx.txHash, "approval", Outer(stack));
    log := [] + [use] + [grant] + [Note(tx.target, tx.txHash, "approval")];
  }

  lemma PriceSteps(cfg: Config, s: Store, tx: Transaction, sender: Id, asset: Id, maxAge: nat, stack: seq<Id>)
    returns (log: seq<Step>)
    requires Running(cfg, tx.target, Oracle(asset, maxAge), stack)
             && OracleSubmitPrice(cfg, s, tx, sender, asset, maxAge).Ok?
    ensures Linear(cfg, s, log, OracleSubmitPrice(cfg, s, tx, sender, asset, maxAge).value.0, Outer(stack))
  {
    var c, outer := tx.target, Outer(stack);
    var priceKey, timeKey := OraclePrice(c, asset), OracleTimestamp(c, asset);
    LinearNil(cfg, s, outer);
    OwnStep(cfg, s, [], s, c, priceKey, tx.args[1].amount, outer);
    log := [] + [Own(c, priceKey, tx.args[1].amount)];
    var s1 := Put(s, priceKey, tx.args[1].amount);
    OwnStep(cfg, s, log, s1, c, timeKey, tx.args[2].amount, outer);
    log := log + [Own(c, timeKey, tx.args[2].amount)];
    var s2 := Put(s1, timeKey, tx.args[2].amount);
    NoteStep(cfg, s, log, s2, c, tx.txHash, "price", outer);
    log := log + [Note(c, tx.txHash, "price")];
  }

  // ------------------------------------------------------------------------- pools

  /** Two transfers made one after the other by the contract on top of the stack leave its own keys alone. */
  lemma {:induction false} TwoTransfers(cfg: Config, s: Store, tx: Transaction, x: LedgerRef, y: LedgerRef, fromX: Id,
                                        toX: Id, assetX: Id, amountX: nat,
                                        fromY: Id, toY: Id, assetY: Id, amountY: nat, s1: Store, s2: Store, kind: Kind,
                                        stack: seq<Id>)
    returns (log: seq<Step>)
    requires WellFormed(cfg) && Indexed(s) && Running(cfg, tx.target, kind, stack) && !kind.Token?
    requires (x.Native? ==> IsToken(cfg, x.token)) && (y.Native? ==> IsToken(cfg, y.token))
    requires TransferAsset(cfg, s, tx, x, fromX, toX, assetX, amountX, stack) == Ok(s1)
    requires TransferAsset(cfg, s1, tx, y, fromY, toY, assetY, amountY, stack) == Ok(s2)
    ensures Linear(cfg, s, log, s2, Outer(stack)) && SameOwn(s.storage, s2.storage, tx.target)
    decreases Idle(cfg, stack), 2
  {
    var log1 := TransferSteps(cfg, s, tx, x, fromX, toX, assetX, amountX, stack);
    LinearIndexed(cfg, s, log1, s1, stack);
    var log2 := TransferSteps(cfg, s1, tx, y, fromY, toY, assetY, amountY, stack);
    LinearJoin(cfg, s, log1, s1, log2, s2, stack);
    log := log1 + log2;
    LinearFrame(cfg, s, log, s2, stack, tx.target);
    LinearOuter(cfg, s, log, s2, stack);
  }

  lemma SwapParts(cfg: Config, s: Store, tx: Transaction, sender: Id, kind: Kind, stack: seq<Id>)
    returns (x: LedgerRef, y: LedgerRef, out: nat, fee: nat, s1: Store, s2: Store)
    requires kind.AmmPool? && PoolSwap(cfg, s, tx, sender, kind, stack).Ok?
    ensures |tx.args| == 3 && tx.args[0].AssetArg? && tx.args[1].AmountArg? && tx.args[1].amount > 0
    ensures var pool, input, amountIn := tx.target, tx.args[0].id, tx.args[1].amount;
            var output := OutputOf(kind, input);
            var reserveIn, reserveOut := Get(s.storage, Reserve(pool, input)), Get(s.storage, Reserve(pool, output));
            && (input == kind.assetA || input == kind.assetB)
            && ResolveLedger(cfg, s, input) == Ok(x) && ResolveLedger(cfg, s, output) == Ok(y)
            && Quote(reserveIn, reserveOut, amountIn, kind.feeBps) == Ok((out, fee))
            && TransferAsset(cfg, s, tx, x, sender, pool, input, amountIn, stack) == Ok(s1)
            && TransferAsset(cfg, s1, tx, y, pool, sender, output, out, stack) == Ok(s2)
            && Add(reserveIn, amountIn).Ok?
            && PoolSwap(cfg, s, tx, sender, kind, stack)
               == SettleSwap(s2,
                             Frame(pool,
                                   {Reserve(pool, input), Reserve(pool, output),
                                    AmmFeeCollected(pool, input)}), pool, input, output,
                             reserveIn + amountIn, SaturatingSub(reserveOut, out), fee, out, tx.txHash)
  {
    hide Quote, SettleSwap, TransferAsset, ResolveLedger;
    var pool, input, amountIn := tx.target, tx.args[0].id, tx.args[1].amount;
    var output := OutputOf(kind, input);
    x, y := ResolveLedger(cfg, s, input).value, ResolveLedger(cfg, s, output).value;
    var quote := Quote(Get(s.storage, Reserve(pool, input)), Get(s.storage, Reserve(pool, output)), amountIn,
                       kind.feeBps).value;
    out, fee := quote.0, quote.1;
    s1 := TransferAsset(cfg, s, tx, x, sender, pool, input, amountIn, stack).value;
    s2 := TransferAsset(cfg, s1, tx, y, pool, sender, output, out, stack).value;
  }

  lemma {:induction false} SwapSteps(cfg: Config, s: Store, tx: Transaction, sender: Id, kind: Kind, stack: seq<Id>)
    returns (log: seq<Step>)
    requires WellFormed(cfg) && Indexed(s) && Running(cfg, tx.target, kind, stack) && kind.AmmPool?
             && PoolSwap(cfg, s, tx, sender, kind, stack).Ok?
    ensures Linear(cfg, s, log, PoolSwap(cfg, s, tx, sender, kind, stack).value.0, Outer(stack))
    decreases Idle(cfg, stack), 3
  {
    hide Linear, PoolSwap, Quote, SettleSwap, TransferAsset, ResolveLedger, NativeLedgers;
    var x, y, out, fee, s1, s2 := SwapParts(cfg, s, tx, sender, kind, stack);
    var pool, input, amountIn := tx.target, tx.args[0].id, tx.args[1].amount;
    var output := OutputOf(kind, input);
    ResolvedIsToken(cfg, s, input);
    ResolvedIsToken(cfg, s, output);
    log := TwoTransfers(cfg, s, tx, x, y, sender, pool, input, amountIn, pool, sender, output, out, s1, s2, kind,
                        stack);
    var (final, ret) := PoolSwap(cfg, s, tx, sender, kind, stack).value;
    var frame := Frame(pool, {Reserve(pool, input), Reserve(pool, output), AmmFeeCollected(pool, input)});
    var own := SettleSwapSteps(cfg, s2, frame, pool, input, amountIn, out, fee, kind, tx.txHash, final, ret,
                               Outer(stack));
    LinearJoin(cfg, s, log, s2, own, final, Outer(stack));
    log := log + own;
  }

  /** What the settlement of a swap writes. */
  lemma SwapWrites(s: Store, frame: Frame, pool: Id, input: Id, output: Id, newIn: nat, newOut: nat, fee: nat,
                   out: nat, txHash: string,
                   final: Store, ret: Ret)
    requires input != output
             && SettleSwap(s, frame, pool, input, output, newIn, newOut, fee, out, txHash) == Ok((final, ret))
    ensures var feeKey := AmmFeeCollected(pool, input);
            var s1 := Put(Put(s, Reserve(pool, input), newIn), Reserve(pool, output), newOut);
            final == Emit(if fee == 0 then s1
                          else Put(s1, feeKey, Get(s1.storage, feeKey) + fee), pool, txHash, Notice("swap"))
  {
    hide LpBalanced, InScope;
    var feeKey, inKey, outKey := AmmFeeCollected(pool, input), Reserve(pool, input), Reserve(pool, output);
    var collected := Get(s.storage, feeKey) + fee;
    assert s.storage[inKey := newIn][feeKey := collected][outKey := newOut]
             == s.storage[inKey := newIn][outKey := newOut][feeKey := collected];
  }

  lemma SettleSwapSteps(cfg: Config, s: Store, frame: Frame, pool: Id, input: Id, amountIn: nat, out: nat, fee: nat,
                        kind: Kind, txHash: string,
                        final: Store, ret: Ret, outer: seq<Id>) returns (log: seq<Step>)
    requires WellFormed(cfg) && pool in cfg.contracts && cfg.contracts[pool] == kind && kind.AmmPool? && pool !in outer
    requires input == kind.assetA || input == kind.assetB
    requires var output := OutputOf(kind, input);
             var reserveIn, reserveOut := Get(s.storage, Reserve(pool, input)), Get(s.storage, Reserve(pool, output));
             && Quote(reserveIn, reserveOut, amountIn, kind.feeBps) == Ok((out, fee))
             && Add(reserveIn, amountIn).Ok?
             && SettleSwap(s, frame, pool, input, output, reserveIn + amountIn, SaturatingSub(reserveOut, out), fee,
                           out, txHash) == Ok((final, ret))
    ensures Linear(cfg, s, log, final, outer)
  {
    hide Linear, Quote, SettleSwap;
    var output := OutputOf(kind, input);
    var inKey, outKey, feeKey := Reserve(pool, input), Reserve(pool, output), AmmFeeCollected(pool, input);
    var step := SwapReserves(pool, input, amountIn, out);
    var newIn, newOut := Get(s.storage, inKey) + amountIn, SaturatingSub(Get(s.storage, outKey), out);
    var s1 := Put(Put(s, inKey, newIn), outKey, newOut);
    SwapWrites(s, frame, pool, input, output, newIn, newOut, fee, out, txHash, final, ret);
    LinearNil(cfg, s, outer);
    LinearStep(cfg, s, [], s, step, s1, outer);
    log := [] + [step];
    var s2 := s1;
    if fee != 0 {
      var collected := Get(s1.storage, feeKey) + fee;
      OwnStep(cfg, s, log, s1, pool, feeKey, collected, outer);
      log := log + [Own(pool, feeKey, collected)];
      s2 := Put(s1, feeKey, collected);
    }
    NoteStep(cfg, s, log, s2, pool, txHash, "swap", outer);
    log := log + [Note(pool, txHash, "swap")];
  }

  lemma LpWrites(s: Store, frame: Frame, pool: Id, provider: Id, supply: nat, held: nat, minted: nat, txHash: string,
                 final: Store, ret: Ret)
    requires SettleLp(s, frame, pool, provider, supply, held, minted, txHash) == Ok((final, ret))
    ensures final == Emit(Put(Put(s, LpSupply(pool), supply + minted), LpBalance(pool, provider), held + minted),
                          pool, txHash, Notice("liquidity"))
  {
    hide LpBalanced, InScope;
  }

  lemma SettleAddSteps(cfg: Config, s: Store, frame: Frame, pool: Id, provider: Id, amountA: nat, amountB: nat,
                       kind: Kind, txHash: string,
                       final: Store, ret: Ret, outer: seq<Id>) returns (log: seq<Step>)
    requires pool in cfg.contracts && cfg.contracts[pool] == kind && kind.AmmPool? && kind.assetA != kind.assetB
             && pool !in outer
    requires var keyA, keyB := Reserve(pool, kind.assetA), Reserve(pool, kind.assetB);
             && Add(Get(s.storage, keyA), amountA).Ok? && Add(Get(s.storage, keyB), amountB).Ok?
             && var s1 := Put(Put(s, keyA, Get(s.storage, keyA) + amountA), keyB, Get(s.storage, keyB) + amountB);
                SettleLp(s1, frame, pool, provider, Get(s.storage, LpSupply(pool)),
                         Get(s.storage, LpBalance(pool, provider)),
                         amountA + amountB, txHash) == Ok((final, ret))
    ensures Linear(cfg, s, log, final, outer)
  {
    hide Linear, SettleLp;
    var keyA, keyB := Reserve(pool, kind.assetA), Reserve(pool, kind.assetB);
    var s1 := Put(Put(s, keyA, Get(s.storage, keyA) + amountA), keyB, Get(s.storage, keyB) + amountB);
    var supply, held := Get(s.storage, LpSupply(pool)) + (amountA + amountB),
      Get(s.storage, LpBalance(pool, provider)) + (amountA + amountB);
    LpWrites(s1, frame, pool, provider, Get(s.storage, LpSupply(pool)), Get(s.storage, LpBalance(pool, provider)),
             amountA + amountB, txHash, final, ret);
    LinearNil(cfg, s, outer);
    LinearStep(cfg, s, [], s, AddReserves(pool, amountA, amountB), s1, outer);
    log := [] + [AddReserves(pool, amountA, amountB)];
    OwnStep(cfg, s, log, s1, pool, LpSupply(pool), supply, outer);
    log := log + [Own(pool, LpSupply(pool), supply)];
    var s2 := Put(s1, LpSupply(pool), supply);
    OwnStep(cfg, s, log, s2, pool, LpBalance(pool, provider), held, outer);
    log := log + [Own(pool, LpBalance(pool, provider), held)];
    NoteStep(cfg, s, log, Put(s2, LpBalance(pool, provider), held), pool, txHash, "liquidity", outer);
    log := log + [Note(pool, txHash, "liquidity")];
  }

  lemma AddParts(cfg: Config, s: Store, tx: Transaction, sender: Id, kind: Kind, stack: seq<Id>)
    returns (x: LedgerRef, y: LedgerRef, s1: Store, s2: Store)
    requires kind.AmmPool? && kind.assetA != kind.assetB && PoolAddLiquidity(cfg, s, tx, sender, kind, stack).Ok?
    ensures |tx.args| == 2 && tx.args[0].AmountArg? && tx.args[1].AmountArg? && tx.args[0].amount > 0
            && tx.args[1].amount > 0
    ensures var pool, a, b, amountA, amountB :=
              tx.target, kind.assetA, kind.assetB, tx.args[0].amount, tx.args[1].amount;
            var keyA, keyB := Reserve(pool, a), Reserve(pool, b);
            var newA, newB := Get(s.storage, keyA) + amountA, Get(s.storage, keyB) + amountB;
            && ResolveLedger(cfg, s, a) == Ok(x) && ResolveLedger(cfg, s, b) == Ok(y)
            && TransferAsset(cfg, s, tx, x, sender, pool, a, amountA, stack) == Ok(s1)
            && TransferAsset(cfg, s1, tx, y, sender, pool, b, amountB, stack) == Ok(s2)
            && newA <= U128_MAX && newB <= U128_MAX
            && PoolAddLiquidity(cfg, s, tx, sender, kind, stack)
               == SettleLp(Put(Put(s2, keyA, newA), keyB, newB),
                           Frame(pool, {keyA, keyB, LpSupply(pool), LpBalance(pool, sender)}), pool, sender,
                           Get(s.storage, LpSupply(pool)), Get(s.storage, LpBalance(pool, sender)), amountA
                             + amountB, tx.txHash)
  {
    hide SettleLp, TransferAsset, ResolveLedger;
    x, y := ResolveLedger(cfg, s, kind.assetA).value, ResolveLedger(cfg, s, kind.assetB).value;
    s1 := TransferAsset(cfg, s, tx, x, sender, tx.target, kind.assetA, tx.args[0].amount, stack).value;
    s2 := TransferAsset(cfg, s1, tx, y, sender, tx.target, kind.assetB, tx.args[1].amount, stack).value;
  }

  lemma {:induction false} AddLiquiditySteps(cfg: Config, s: Store, tx: Transaction, sender: Id, kind: Kind,
                                             stack: seq<Id>)
    returns (log: seq<Step>)
    requires WellFormed(cfg) && Indexed(s) && Running(cfg, tx.target, kind, stack) && kind.AmmPool?
             && PoolAddLiquidity(cfg, s, tx, sender, kind, stack).Ok?
    ensures Linear(cfg, s, log, PoolAddLiquidity(cfg, s, tx, sender, kind, stack).value.0, Outer(stack))
    decreases Idle(cfg, stack), 3
  {
    hide Linear, PoolAddLiquidity, SettleLp, TransferAsset, ResolveLedger, NativeLedgers;
    var x, y, s1, s2 := AddParts(cfg, s, tx, sender, kind, stack);
    var pool, a, b, amountA, amountB := tx.target, kind.assetA, kind.assetB, tx.args[0].amount, tx.args[1].amount;
    ResolvedIsToken(cfg, s, a);
    ResolvedIsToken(cfg, s, b);
    log := TwoTransfers(cfg, s, tx, x, y, sender, pool, a, amountA, sender, pool, b, amountB, s1, s2, kind, stack);
    var (final, ret) := PoolAddLiquidity(cfg, s, tx, sender, kind, stack).value;
    var frame := Frame(pool, {Reserve(pool, a), Reserve(pool, b), LpSupply(pool), LpBalance(pool, sender)});
    var own := SettleAddSteps(cfg, s2, frame, pool, sender, amountA, amountB, kind, tx.txHash, final, ret,
                              Outer(stack));
    LinearJoin(cfg, s, log, s2, own, final, Outer(stack));
    log := log + own;
  }

  // ------------------------------------------------------------------------ bridge

  lemma {:induction false} QueueSteps(cfg: Config, s: Store, tx: Transaction, sender: Id, kind: Kind, stack: seq<Id>)
    returns (log: seq<Step>)
    requires WellFormed(cfg) && Indexed(s) && Running(cfg, tx.target, kind, stack) && kind.Bridge?
             && BridgeQueue(cfg, s, tx, sender, stack).Ok?
    ensures Linear(cfg, s, log, BridgeQueue(cfg, s, tx, sender, stack).value.0, Outer(stack))
    decreases Idle(cfg, stack), 3
  {
    hide Linear, TransferAsset, ResolveLedger;
    var id, asset, amount := tx.args[2].text, tx.args[4].id, tx.args[5].amount;
    var ledger := ResolveLedger(cfg, s, asset).value;
    ResolvedIsToken(cfg, s, asset);
    var s1 := TransferAsset(cfg, s, tx, ledger, sender, tx.target, asset, amount, stack).value;
    log := TransferSteps(cfg, s, tx, ledger, sender, tx.target, asset, amount, stack);
    LinearQueued(cfg, s, log, s1, stack, tx.target, id);
    LinearOuter(cfg, s, log, s1, stack);
    var message := Message(cfg.chainId, tx.target, cfg.height, tx.args[0].text, tx.args[1].text, id, tx.args[3].id,
                           asset, amount);
    var append := Append(message, id !in s1.outboundIds);
    if ledger.Native? { NativeTransferKeepsIds(cfg, s, tx, ledger, sender, tx.target, asset, amount, stack); }
    var s2 := s1.(outboundIds := s1.outboundIds + {id}, outbox := s1.outbox + [message]);
    LinearStep(cfg, s, log, s1, append, s2, Outer(stack));
    log := log + [append];
    NoteStep(cfg, s, log, s2, tx.target, tx.txHash, "queued", Outer(stack));
    log := log + [Note(tx.target, tx.txHash, "queued")];
  }

  lemma RedeemSteps(cfg: Config, s: Store, tx: Transaction, sender: Id, kind: Kind, stack: seq<Id>)
    returns (log: seq<Step>)
    requires Running(cfg, tx.target, kind, stack) && kind.Bridge?
             && BridgeRedeem(cfg, s, tx, sender, kind.sourceChain).Ok?
    ensures Linear(cfg, s, log, BridgeRedeem(cfg, s, tx, sender, kind.sourceChain).value.0, Outer(stack))
  {
    hide Linear, MintNative, BridgeCertified, ResolveLedger, NativeLedgers;
    var asset := tx.args[2].id;
    var token := ResolveLedger(cfg, s, asset).value.token;
    ResolvedIsToken(cfg, s, asset);
    var step := Redeem(tx.target, token, tx.args[0].text, tx.args[1].id, asset, tx.args[3].amount, tx.args[4].text,
                       tx.txHash);
    LinearNil(cfg, s, Outer(stack));
    LinearStep(cfg, s, [], s, step, BridgeRedeem(cfg, s, tx, sender, kind.sourceChain).value.0, Outer(stack));
    log := [] + [step];
  }

  // ----------------------------------------------------------------------- lending

  lemma {:induction false} DepositSteps(cfg: Config, s: Store, tx: Transaction, kind: Kind, stack: seq<Id>)
    returns (log: seq<Step>)
    requires WellFormed(cfg) && Indexed(s) && Running(cfg, tx.target, kind, stack) && kind.LendingVault?
             && VaultDeposit(cfg, s, tx, kind, stack).Ok?
    ensures Linear(cfg, s, log, VaultDeposit(cfg, s, tx, kind, stack).value.0, Outer(stack))
    decreases Idle(cfg, stack), 3
  {
    hide Linear, TransferAsset, ResolveLedger;
    var vault, asset, amount, outer := tx.target, tx.args[0].id, tx.args[1].amount, Outer(stack);
    var ledger := ResolveLedger(cfg, s, asset).value;
    ResolvedIsToken(cfg, s, asset);
    var s1 := TransferAsset(cfg, s, tx, ledger, tx.sender, vault, asset, amount, stack).value;
    log := TransferSteps(cfg, s, tx, ledger, tx.sender, vault, asset, amount, stack);
    LinearOuter(cfg, s, log, s1, stack);
    var key := Collateral(vault, tx.sender, asset);
    var next := Get(s.storage, key) + amount;
    OwnStep(cfg, s, log, s1, vault, key, next, outer);
    log := log + [Own(vault, key, next)];
    NoteStep(cfg, s, log, Put(s1, key, next), vault, tx.txHash, "deposit", outer);
    log := log + [Note(vault, tx.txHash, "deposit")];
  }

  lemma AccrueDebtSteps(cfg: Config, s: Store, frame: Frame, vault: Id, borrower: Id, kind: Kind, outer: seq<Id>)
    returns (log: seq<Step>)
    requires kind.LendingVault? && vault !in outer && vault in cfg.contracts
             && AccrueDebt(cfg, s, frame, vault, borrower, kind).Ok?
    ensures Linear(cfg, s, log, AccrueDebt(cfg, s, frame, vault, borrower, kind).value.0, outer)
  {
    var debtKey, heightKey := Debt(vault, borrower, kind.debtAsset),
      DebtLastAccrualHeight(vault, borrower, kind.debtAsset);
    var next := AccrueDebt(cfg, s, frame, vault, borrower, kind).value.1;
    LinearNil(cfg, s, outer);
    log := [];
    var s1 := s;
    if next != Get(s.storage, debtKey) {
      OwnStep(cfg, s, log, s, vault, debtKey, next, outer);
      log := log + [Own(vault, debtKey, next)];
      s1 := Put(s, debtKey, next);
    }
    OwnStep(cfg, s, log, s1, vault, heightKey, cfg.height, outer);
    log := log + [Own(vault, heightKey, cfg.height)];
  }

  lemma BorrowParts(cfg: Config, s: Store, tx: Transaction, sender: Id, kind: Kind, stack: seq<Id>)
    returns (accrued: (Store, nat), ledger: LedgerRef, s2: Store)
    requires kind.LendingVault? && VaultBorrow(cfg, s, tx, sender, kind, stack).Ok?
    ensures |tx.args| == 2 && tx.args[1].AmountArg?
    ensures var vault, amount, asset := tx.target, tx.args[1].amount, kind.debtAsset;
            var debtKey := Debt(vault, sender, asset);
            && AccrueDebt(cfg, s, Frame(vault, {debtKey, DebtLastAccrualHeight(vault, sender, asset)}), vault, sender,
                          kind) == Ok(accrued)
            && ResolveLedger(cfg, accrued.0, asset) == Ok(ledger)
            && TransferAsset(cfg, accrued.0, tx, ledger, vault, sender, asset, amount, stack) == Ok(s2)
            && VaultBorrow(cfg, s, tx, sender, kind, stack).value.0
               == Emit(Put(s2, debtKey, accrued.1 + amount), vault, tx.txHash, Notice("borrow"))
  {
    hide AccrueDebt, DebtLimit, FreshPrice, TransferAsset, ResolveLedger;
    var vault, amount, asset := tx.target, tx.args[1].amount, kind.debtAsset;
    var frame := Frame(vault, {Debt(vault, sender, asset), DebtLastAccrualHeight(vault, sender, asset)});
    accrued := AccrueDebt(cfg, s, frame, vault, sender, kind).value;
    ledger := ResolveLedger(cfg, accrued.0, asset).value;
    s2 := TransferAsset(cfg, accrued.0, tx, ledger, vault, sender, asset, amount, stack).value;
  }

  lemma {:induction false} BorrowSteps(cfg: Config, s: Store, tx: Transaction, sender: Id, kind: Kind, stack: seq<Id>)
    returns (log: seq<Step>)
    requires WellFormed(cfg) && Indexed(s) && Running(cfg, tx.target, kind, stack) && kind.LendingVault?
             && VaultBorrow(cfg, s, tx, sender, kind, stack).Ok?
    ensures Linear(cfg, s, log, VaultBorrow(cfg, s, tx, sender, kind, stack).value.0, Outer(stack))
    decreases Idle(cfg, stack), 3
  {
    hide Linear, VaultBorrow, AccrueDebt, TransferAsset, ResolveLedger, NativeLedgers;
    var accrued, ledger, s2 := BorrowParts(cfg, s, tx, sender, kind, stack);
    var vault, amount, asset, outer := tx.target, tx.args[1].amount, kind.debtAsset, Outer(stack);
    var debtKey := Debt(vault, sender, asset);
    log := AccrueDebtSteps(cfg, s, Frame(vault, {debtKey, DebtLastAccrualHeight(vault, sender, asset)}), vault,
                           sender, kind, outer);
    ResolvedIsToken(cfg, accrued.0, asset);
    LinearIndexed(cfg, s, log, accrued.0, outer);
    var nested := TransferSteps(cfg, accrued.0, tx, ledger, vault, sender, asset, amount, stack);
    LinearOuter(cfg, accrued.0, nested, s2, stack);
    LinearJoin(cfg, s, log, accrued.0, nested, s2, outer);
    log := WriteAndNote(cfg, s, log + nested, s2, vault, debtKey, accrued.1 + amount, tx.txHash, "borrow", outer);
  }

  lemma WriteAndNote(cfg: Config, s: Store, log: seq<Step>, s1: Store, c: Id, key: StateKey, value: nat,
                     txHash: string, name: string, outer: seq<Id>)
    returns (log': seq<Step>)
    requires Linear(cfg, s, log, s1, outer) && Plain(key) && key.contract == c && c !in outer && c in cfg.contracts
    ensures Linear(cfg, s, log', Emit(Put(s1, key, value), c, txHash, Notice(name)), outer)
  {
    OwnStep(cfg, s, log, s1, c, key, value, outer);
    NoteStep(cfg, s, log + [Own(c, key, value)], Put(s1, key, value), c, txHash, name, outer);
    log' := log + [Own(c, key, value)] + [Note(c, txHash, name)];
  }

  lemma BadDebtSteps(cfg: Config, s: Store, log: seq<Step>, s1: Store, frame: Frame, key: StateKey, badDebt: nat,
                     outer: seq<Id>)
    returns (log': seq<Step>)
    requires Linear(cfg, s, log, s1, outer) && Plain(key) && key.contract !in outer && key.contract in cfg.contracts
    requires RecordBadDebt(s1, frame, key, badDebt).Ok?
    ensures Linear(cfg, s, log', RecordBadDebt(s1, frame, key, badDebt).value, outer)
  {
    log' := log;
    if badDebt != 0 {
      var next := Get(s1.storage, key) + badDebt;
      OwnStep(cfg, s, log, s1, key.contract, key, next, outer);
      log' := log + [Own(key.contract, key, next)];
    }
  }

  lemma SettleLiquidationSteps(cfg: Config, s: Store, log: seq<Step>, s1: Store, frame: Frame, vault: Id,
                               borrower: Id, kind: Kind,
                               plan: Liquidation, txHash: string, outer: seq<Id>) returns (log': seq<Step>)
    requires Linear(cfg, s, log, s1, outer) && kind.LendingVault? && vault !in outer && vault in cfg.contracts
    requires SettleLiquidation(s1, frame, vault, borrower, kind, plan, txHash).Ok?
    ensures Linear(cfg, s, log', SettleLiquidation(s1, frame, vault, borrower, kind, plan, txHash).value.0, outer)
  {
    var debtKey, collateralKey := Debt(vault, borrower, kind.debtAsset),
      Collateral(vault, borrower, kind.collateralAsset);
    OwnStep(cfg, s, log, s1, vault, debtKey, plan.debtAfter, outer);
    log' := log + [Own(vault, debtKey, plan.debtAfter)];
    var s2 := Put(s1, debtKey, plan.debtAfter);
    OwnStep(cfg, s, log', s2, vault, collateralKey, plan.collateralAfter, outer);
    log' := log' + [Own(vault, collateralKey, plan.collateralAfter)];
    NoteStep(cfg, s, log', Put(s2, collateralKey, plan.collateralAfter), vault, txHash, "liquidated", outer);
    log' := log' + [Note(vault, txHash, "liquidated")];
  }

  lemma {:induction false} LiquidateSteps(cfg: Config, s: Store, tx: Transaction, sender: Id, kind: Kind,
                                          stack: seq<Id>)
    returns (log: seq<Step>)
    requires WellFormed(cfg) && Indexed(s) && Running(cfg, tx.target, kind, stack) && kind.LendingVault?
             && VaultLiquidate(cfg, s, tx, sender, kind, stack).Ok?
    ensures Linear(cfg, s, log, VaultLiquidate(cfg, s, tx, sender, kind, stack).value.0, Outer(stack))
    decreases Idle(cfg, stack), 3
  {
    var vault, borrower, repay, outer := tx.target, tx.args[0].id, tx.args[2].amount, Outer(stack);
    var price := FreshPrice(cfg, s.storage, kind).value;
    var debtKey, collateralKey := Debt(vault, borrower, kind.debtAsset),
      Collateral(vault, borrower, kind.collateralAsset);
    var badKey := BadDebt(vault, kind.debtAsset);
    var frame := Frame(vault, {debtKey, DebtLastAccrualHeight(vault, borrower, kind.debtAsset), collateralKey, badKey});
    var accrued := AccrueDebt(cfg, s, frame, vault, borrower, kind).value;
    var plan := PlanLiquidation(accrued.1, Get(accrued.0.storage, collateralKey), price, repay, kind.ltvBps,
                                kind.thresholdBps).value;
    var s1 := RecordBadDebt(accrued.0, frame, badKey, plan.badDebt).value;
    log := AccrueDebtSteps(cfg, s, frame, vault, borrower, kind, outer);
    log := BadDebtSteps(cfg, s, log, accrued.0, frame, badKey, plan.badDebt, outer);
    LinearIndexed(cfg, s, log, s1, outer);
    var s2, s3, nested := LiquidationTransfers(cfg, s1, tx, sender, kind, plan, stack);
    LinearJoin(cfg, s, log, s1, nested, s3, outer);
    log := SettleLiquidationSteps(cfg, s, log + nested, s3, frame, vault, borrower, kind, plan, tx.txHash, outer);
  }

  /** The repayment and the seizure. */
  lemma {:induction false} LiquidationTransfers(cfg: Config, s1: Store, tx: Transaction, sender: Id, kind: Kind,
                                                plan: Liquidation, stack: seq<Id>)
    returns (s2: Store, s3: Store, log: seq<Step>)
    requires WellFormed(cfg) && Indexed(s1) && kind.LendingVault?
    requires ResolveLedger(cfg, s1, kind.debtAsset).Ok? && ResolveLedger(cfg, s1, kind.collateralAsset).Ok?
    requires var repayment :=
               TransferAsset(cfg, s1, tx, ResolveLedger(cfg, s1, kind.debtAsset).value, sender, tx.target,
                             kind.debtAsset,
                                            plan.repaid, stack);
             && repayment.Ok?
             && (plan.seized != 0 ==>
                 TransferAsset(cfg, repayment.value, tx, ResolveLedger(cfg, s1, kind.collateralAsset).value,
                               tx.target, sender,
                                                    kind.collateralAsset, plan.seized, stack).Ok?)
    ensures TransferAsset(cfg, s1, tx, ResolveLedger(cfg, s1, kind.debtAsset).value, sender, tx.target,
                          kind.debtAsset, plan.repaid, stack) == Ok(s2)
    ensures (if plan.seized == 0 then Ok(s2)
             else TransferAsset(cfg, s2, tx, ResolveLedger(cfg, s1, kind.collateralAsset).value, tx.target, sender,
                                kind.collateralAsset,
                                plan.seized, stack)) == Ok(s3)
    ensures Linear(cfg, s1, log, s3, Outer(stack))
    decreases Idle(cfg, stack), 2
  {
    var vault := tx.target;
    var debtLedger, collateralLedger := ResolveLedger(cfg, s1, kind.debtAsset).value,
      ResolveLedger(cfg, s1, kind.collateralAsset).value;
    ResolvedIsToken(cfg, s1, kind.debtAsset);
    ResolvedIsToken(cfg, s1, kind.collateralAsset);
    s2 := TransferAsset(cfg, s1, tx, debtLedger, sender, vault, kind.debtAsset, plan.repaid, stack).value;
    log := TransferSteps(cfg, s1, tx, debtLedger, sender, vault, kind.debtAsset, plan.repaid, stack);
    s3 := s2;
    if plan.seized != 0 {
      s3 := TransferAsset(cfg, s2, tx, collateralLedger, vault, sender, kind.collateralAsset, plan.seized, stack).value;
      LinearIndexed(cfg, s1, log, s2, stack);
      var seizure := TransferSteps(cfg, s2, tx, collateralLedger, vault, sender, kind.collateralAsset, plan.seized,
                                   stack);
      LinearJoin(cfg, s1, log, s2, seizure, s3, stack);
      log := log + seizure;
    }
    LinearOuter(cfg, s1, log, s3, stack);
  }

  // ----------------------------------------------------------------------- staking

  lemma AccrueSteps(cfg: Config, s: Store, c: Id, staker: Id, kind: Kind, outer: seq<Id>) returns (log: seq<Step>)
    requires c in cfg.contracts && cfg.contracts[c] == kind && kind.Staking? && c !in outer
    requires AccrueRewards(cfg, s, StakingFrame(c, staker, kind.stakingAsset), c, staker, kind.stakingAsset,
                           kind.rewardPerBlock).Ok?
    ensures Linear(cfg, s, log,
                   AccrueRewards(cfg, s, StakingFrame(c, staker, kind.stakingAsset), c, staker, kind.stakingAsset,
                                              kind.rewardPerBlock).value, outer)
  {
    LinearNil(cfg, s, outer);
    log := [] + [Accrue(c, staker)];
    LinearStep(cfg, s, [], s, Accrue(c, staker), ApplyAccrue(cfg, s, c, staker).value, outer);
  }

  /** After an accrual the stake may be changed. */
  lemma RestakeStep(cfg: Config, s: Store, log: seq<Step>, s1: Store, c: Id, staker: Id, kind: Kind, stake: nat,
                    outer: seq<Id>)
    requires Linear(cfg, s, log, s1, outer) && c in cfg.contracts && cfg.contracts[c] == kind && kind.Staking?
             && c !in outer
    requires Get(s1.storage, StakingLastRewardHeight(c, staker, kind.stakingAsset)) == cfg.height
    ensures Linear(cfg, s, log + [Restake(c, staker, stake)],
                   Put(s1, StakeBalance(c, staker, kind.stakingAsset), stake), outer)
  {
    LinearStep(cfg, s, log, s1, Restake(c, staker, stake), Put(s1, StakeBalance(c, staker, kind.stakingAsset), stake),
               outer);
  }

  lemma SettleStakeSteps(cfg: Config, s: Store, log: seq<Step>, s1: Store, c: Id, staker: Id, kind: Kind, stake: nat,
                         total: nat, amount: nat,
                         txHash: string, outer: seq<Id>) returns (log': seq<Step>)
    requires Linear(cfg, s, log, s1, outer) && c in cfg.contracts && cfg.contracts[c] == kind && kind.Staking?
             && c !in outer
    requires Get(s1.storage, StakingLastRewardHeight(c, staker, kind.stakingAsset)) == cfg.height
    requires SettleStake(s1, StakingFrame(c, staker, kind.stakingAsset), c, staker, kind.stakingAsset, stake, total,
                         amount, txHash).Ok?
    ensures Linear(cfg, s, log',
                   SettleStake(s1, StakingFrame(c, staker, kind.stakingAsset), c, staker, kind.stakingAsset, stake,
                               total, amount,
                                             txHash).value.0, outer)
  {
    var asset := kind.stakingAsset;
    RestakeStep(cfg, s, log, s1, c, staker, kind, stake + amount, outer);
    log' := log + [Restake(c, staker, stake + amount)];
    var s2 := Put(s1, StakeBalance(c, staker, asset), stake + amount);
    OwnStep(cfg, s, log', s2, c, TotalStaked(c, asset), total + amount, outer);
    log' := log' + [Own(c, TotalStaked(c, asset), total + amount)];
    NoteStep(cfg, s, log', Put(s2, TotalStaked(c, asset), total + amount), c, txHash, "staked", outer);
    log' := log' + [Note(c, txHash, "staked")];
  }

  lemma {:induction false} StakeSteps(cfg: Config, s: Store, tx: Transaction, staker: Id, kind: Kind, stack: seq<Id>)
    returns (log: seq<Step>)
    requires WellFormed(cfg) && Indexed(s) && Running(cfg, tx.target, kind, stack) && kind.Staking?
             && StakingStake(cfg, s, tx, staker, kind, stack).Ok?
    ensures Linear(cfg, s, log, StakingStake(cfg, s, tx, staker, kind, stack).value.0, Outer(stack))
    decreases Idle(cfg, stack), 3
  {
    var c, asset, amount, outer := tx.target, kind.stakingAsset, tx.args[1].amount, Outer(stack);
    var s1 := AccrueRewards(cfg, s, StakingFrame(c, staker, asset), c, staker, asset, kind.rewardPerBlock).value;
    log := AccrueSteps(cfg, s, c, staker, kind, outer);
    AccrualWrites(cfg, s, c, staker, asset, kind.rewardPerBlock);
    var ledger := ResolveLedger(cfg, s1, asset).value;
    ResolvedIsToken(cfg, s1, asset);
    var s2 := TransferAsset(cfg, s1, tx, ledger, staker, c, asset, amount, stack).value;
    LinearIndexed(cfg, s, log, s1, outer);
    var nested := TransferSteps(cfg, s1, tx, ledger, staker, c, asset, amount, stack);
    LinearFrame(cfg, s1, nested, s2, stack, c);
    LinearOuter(cfg, s1, nested, s2, stack);
    LinearJoin(cfg, s, log, s1, nested, s2, outer);
    var stake, total := Get(s1.storage, StakeBalance(c, staker, asset)), Get(s1.storage, TotalStaked(c, asset));
    log := SettleStakeSteps(cfg, s, log + nested, s2, c, staker, kind, stake, total, amount, tx.txHash, outer);
  }

  lemma WithdrawSteps(cfg: Config, s: Store, log: seq<Step>, s1: Store, c: Id, staker: Id, kind: Kind, amount: nat,
                      penalty: nat, outer: seq<Id>)
    returns (log': seq<Step>)
    requires Linear(cfg, s, log, s1, outer) && c in cfg.contracts && cfg.contracts[c] == kind && kind.Staking?
             && c !in outer
    requires Get(s1.storage, StakingLastRewardHeight(c, staker, kind.stakingAsset)) == cfg.height
    requires CheckStake(s1, c, staker, kind.stakingAsset, amount).Ok?
    requires Withdraw(s1, StakingFrame(c, staker, kind.stakingAsset), c, staker, kind.stakingAsset, amount, penalty).Ok?
    ensures Linear(cfg, s, log',
                   Withdraw(s1, StakingFrame(c, staker, kind.stakingAsset), c, staker, kind.stakingAsset, amount,
                            penalty).value, outer)
  {
    hide Linear;
    var asset := kind.stakingAsset;
    var stake, total := Get(s1.storage, StakeBalance(c, staker, asset)), Get(s1.storage, TotalStaked(c, asset));
    RestakeStep(cfg, s, log, s1, c, staker, kind, stake - amount, outer);
    log' := log + [Restake(c, staker, stake - amount)];
    var s2 := Put(s1, StakeBalance(c, staker, asset), stake - amount);
    OwnStep(cfg, s, log', s2, c, TotalStaked(c, asset), total - amount, outer);
    log' := log' + [Own(c, TotalStaked(c, asset), total - amount)];
    if penalty != 0 {
      var s3 := Put(s2, TotalStaked(c, asset), total - amount);
      var key := StakingPenaltyCollected(c, asset);
      var collected := Get(s3.storage, key) + penalty;
      OwnStep(cfg, s, log', s3, c, key, collected, outer);
      log' := log' + [Own(c, key, collected)];
    }
  }

  lemma {:induction false} UnstakeSteps(cfg: Config, s: Store, tx: Transaction, staker: Id, kind: Kind, stack: seq<Id>)
    returns (log: seq<Step>)
    requires WellFormed(cfg) && Indexed(s) && Running(cfg, tx.target, kind, stack) && kind.Staking?
             && StakingUnstake(cfg, s, tx, staker, kind, stack).Ok?
    ensures Linear(cfg, s, log, StakingUnstake(cfg, s, tx, staker, kind, stack).value.0, Outer(stack))
    decreases Idle(cfg, stack), 3
  {
    hide Linear, TransferAsset, ResolveLedger, AccrueRewards, Withdraw, Penalty, StakesBalanced, PendingBalanced;
    var c, asset, amount, outer := tx.target, kind.stakingAsset, tx.args[1].amount, Outer(stack);
    var s1 := AccrueRewards(cfg, s, StakingFrame(c, staker, asset), c, staker, asset, kind.rewardPerBlock).value;
    log := AccrueSteps(cfg, s, c, staker, kind, outer);
    AccrualWrites(cfg, s, c, staker, asset, kind.rewardPerBlock);
    var split := Penalty(amount, kind.penaltyBps).value;
    var ledger := ResolveLedger(cfg, s1, asset).value;
    ResolvedIsToken(cfg, s1, asset);
    var s2 := Withdraw(s1, StakingFrame(c, staker, asset), c, staker, asset, amount, split.1).value;
    log := WithdrawSteps(cfg, s, log, s1, c, staker, kind, amount, split.1, outer);
    var s3 := s2;
    if split.0 != 0 {
      s3 := TransferAsset(cfg, s2, tx, ledger, c, staker, asset, split.0, stack).value;
      LinearIndexed(cfg, s, log, s2, outer);
      var nested := TransferSteps(cfg, s2, tx, ledger, c, staker, asset, split.0, stack);
      LinearOuter(cfg, s2, nested, s3, stack);
      LinearJoin(cfg, s, log, s2, nested, s3, outer);
      log := log + nested;
    }
    NoteStep(cfg, s, log, s3, c, tx.txHash, "unstaked", outer);
    log := log + [Note(c, tx.txHash, "unstaked")];
  }

  lemma ParkStep(cfg: Config, s: Store, log: seq<Step>, s1: Store, c: Id, staker: Id, kind: Kind, released: nat,
                 outer: seq<Id>)
    requires Linear(cfg, s, log, s1, outer) && c in cfg.contracts && cfg.contracts[c] == kind && kind.Staking?
             && c !in outer
    ensures ApplyPark(cfg, s1, c, staker, released).Ok?
    ensures Linear(cfg, s, log + [Park(c, staker, released)], ApplyPark(cfg, s1, c, staker, released).value, outer)
  {
    LinearStep(cfg, s, log, s1, Park(c, staker, released), ApplyPark(cfg, s1, c, staker, released).value, outer);
  }

  /** What the settlement of a request writes. */
  lemma RequestWrites(s: Store, frame: Frame, c: Id, staker: Id, asset: Id, released: nat, ready: nat, txHash: string)
    requires SettleRequest(s, frame, c, staker, asset, released, ready, txHash).Ok?
    ensures var pendingKey, totalKey, readyKey :=
              PendingUnbond(c, staker, asset), TotalPendingUnbond(c, asset), UnbondReadyHeight(c, staker, asset);
            var parked := Put(Put(s, pendingKey, Get(s.storage, pendingKey) + released), readyKey, ready);
            SettleRequest(s, frame, c, staker, asset, released, ready, txHash).value.0
            == Emit(Put(parked, totalKey, Get(s.storage, totalKey) + released), c, txHash, Notice("requested"))
  {
    hide StakesBalanced, PendingBalanced, InScope;
    var pendingKey, totalKey, readyKey := PendingUnbond(c, staker, asset), TotalPendingUnbond(c, asset),
      UnbondReadyHeight(c, staker, asset);
    var pending, total := Get(s.storage, pendingKey) + released, Get(s.storage, totalKey) + released;
    assert s.storage[pendingKey := pending][totalKey := total][readyKey := ready]
             == s.storage[pendingKey := pending][readyKey := ready][totalKey := total];
  }

  lemma SettleRequestSteps(cfg: Config, s: Store, log: seq<Step>, s1: Store, frame: Frame, c: Id, staker: Id,
                           kind: Kind, released: nat,
                           txHash: string, outer: seq<Id>) returns (log': seq<Step>)
    requires Linear(cfg, s, log, s1, outer) && c in cfg.contracts && cfg.contracts[c] == kind && kind.Staking?
             && c !in outer
    requires SettleRequest(s1, frame, c, staker, kind.stakingAsset, released, cfg.height + kind.unbondingDelay,
                           txHash).Ok?
    ensures Linear(cfg, s, log',
                   SettleRequest(s1, frame, c, staker, kind.stakingAsset, released, cfg.height + kind.unbondingDelay,
                                 txHash).value.0,
                   outer)
  {
    hide Linear, SettleRequest;
    var asset := kind.stakingAsset;
    var totalKey := TotalPendingUnbond(c, asset);
    RequestWrites(s1, frame, c, staker, asset, released, cfg.height + kind.unbondingDelay, txHash);
    ParkStep(cfg, s, log, s1, c, staker, kind, released, outer);
    var s2 := ApplyPark(cfg, s1, c, staker, released).value;
    log' := WriteAndNote(cfg, s, log + [Park(c, staker, released)], s2, c, totalKey,
                         Get(s1.storage, totalKey) + released, txHash, "requested", outer);
  }

  lemma RequestParts(cfg: Config, s: Store, tx: Transaction, staker: Id, kind: Kind)
    returns (s1: Store, s2: Store, amount: nat, split: (nat, nat))
    requires kind.Staking? && StakingRequest(cfg, s, tx, staker, kind).Ok?
    ensures var c, asset := tx.target, kind.stakingAsset;
            var frame := StakingFrame(c, staker, asset);
            && AccrueRewards(cfg, s, frame, c, staker, asset, kind.rewardPerBlock) == Ok(s1)
            && CheckStake(s1, c, staker, asset, amount).Ok?
            && Penalty(amount, kind.penaltyBps) == Ok(split)
            && Withdraw(s1, frame, c, staker, asset, amount, split.1) == Ok(s2)
            && StakingRequest(cfg, s, tx, staker, kind)
               == SettleRequest(s2, frame, c, staker, asset, split.0, cfg.height + kind.unbondingDelay, tx.txHash)
  {
    hide AccrueRewards, Penalty, Withdraw, SettleRequest;
    var c, asset := tx.target, kind.stakingAsset;
    amount := tx.args[1].amount;
    s1 := AccrueRewards(cfg, s, StakingFrame(c, staker, asset), c, staker, asset, kind.rewardPerBlock).value;
    split := Penalty(amount, kind.penaltyBps).value;
    s2 := Withdraw(s1, StakingFrame(c, staker, asset), c, staker, asset, amount, split.1).value;
  }

  lemma RequestSteps(cfg: Config, s: Store, tx: Transaction, staker: Id, kind: Kind, stack: seq<Id>)
    returns (log: seq<Step>)
    requires Running(cfg, tx.target, kind, stack) && kind.Staking? && StakingRequest(cfg, s, tx, staker, kind).Ok?
    ensures Linear(cfg, s, log, StakingRequest(cfg, s, tx, staker, kind).value.0, Outer(stack))
  {
    hide StakingRequest, AccrueRewards, RewardsDue, Withdraw, SettleRequest;
    var c, asset, outer := tx.target, kind.stakingAsset, Outer(stack);
    var s1, s2, amount, split := RequestParts(cfg, s, tx, staker, kind);
    log := AccrueSteps(cfg, s, c, staker, kind, outer);
    AccrualWrites(cfg, s, c, staker, asset, kind.rewardPerBlock);
    log := WithdrawSteps(cfg, s, log, s1, c, staker, kind, amount, split.1, outer);
    log := SettleRequestSteps(cfg, s, log, s2, StakingFrame(c, staker, asset), c, staker, kind, split.0, tx.txHash,
                              outer);
  }

  /** The writes of a completed request before it pays out. */
  lemma ReleaseSteps(cfg: Config, s: Store, c: Id, staker: Id, kind: Kind, amount: nat, s2: Store, outer: seq<Id>)
    returns (log: seq<Step>)
    requires c in cfg.contracts && cfg.contracts[c] == kind && kind.Staking? && c !in outer
    requires var pendingKey, totalKey :=
               PendingUnbond(c, staker, kind.stakingAsset), TotalPendingUnbond(c, kind.stakingAsset);
             && amount <= Get(s.storage, pendingKey) && amount <= Get(s.storage, totalKey)
             && cfg.height >= Get(s.storage, UnbondReadyHeight(c, staker, kind.stakingAsset))
             && s2 == Put(Put(s, pendingKey, Get(s.storage, pendingKey) - amount), totalKey,
                          Get(s.storage, totalKey) - amount)
    ensures Linear(cfg, s, log, s2, outer)
  {
    hide Linear;
    var pendingKey, totalKey := PendingUnbond(c, staker, kind.stakingAsset), TotalPendingUnbond(c, kind.stakingAsset);
    var pending, total := Get(s.storage, pendingKey) - amount, Get(s.storage, totalKey) - amount;
    LinearNil(cfg, s, outer);
    var s1 := Put(s, pendingKey, pending);
    LinearStep(cfg, s, [], s, Release(c, staker, amount), s1, outer);
    log := [] + [Release(c, staker, amount)];
    OwnStep(cfg, s, log, s1, c, totalKey, total, outer);
    log := log + [Own(c, totalKey, total)];
  }

  lemma {:induction false} CompleteSteps(cfg: Config, s: Store, tx: Transaction, staker: Id, kind: Kind, stack: seq<Id>)
    returns (log: seq<Step>)
    requires WellFormed(cfg) && Indexed(s) && Running(cfg, tx.target, kind, stack) && kind.Staking?
             && StakingComplete(cfg, s, tx, staker, kind, stack).Ok?
    ensures Linear(cfg, s, log, StakingComplete(cfg, s, tx, staker, kind, stack).value.0, Outer(stack))
    decreases Idle(cfg, stack), 3
  {
    hide Linear, TransferAsset, ResolveLedger, PendingBalanced;
    var c, asset, amount, outer := tx.target, kind.stakingAsset, tx.args[1].amount, Outer(stack);
    var pendingKey, totalKey := PendingUnbond(c, staker, asset), TotalPendingUnbond(c, asset);
    var s2 := Put(Put(s, pendingKey, Get(s.storage, pendingKey) - amount), totalKey, Get(s.storage, totalKey) - amount);
    log := ReleaseSteps(cfg, s, c, staker, kind, amount, s2, outer);
    var ledger := ResolveLedger(cfg, s2, asset).value;
    ResolvedIsToken(cfg, s2, asset);
    var s3 := TransferAsset(cfg, s2, tx, ledger, c, staker, asset, amount, stack).value;
    LinearIndexed(cfg, s, log, s2, outer);
    var nested := TransferSteps(cfg, s2, tx, ledger, c, staker, asset, amount, stack);
    LinearOuter(cfg, s2, nested, s3, stack);
    LinearJoin(cfg, s, log, s2, nested, s3, outer);
    NoteStep(cfg, s, log + nested, s3, c, tx.txHash, "completed", outer);
    log := log + nested + [Note(c, tx.txHash, "completed")];
  }

  lemma ClaimSteps(cfg: Config, s: Store, tx: Transaction, staker: Id, kind: Kind, stack: seq<Id>)
    returns (log: seq<Step>)
    requires Running(cfg, tx.target, kind, stack) && kind.Staking? && StakingClaim(cfg, s, tx, staker, kind).Ok?
    ensures Linear(cfg, s, log, StakingClaim(cfg, s, tx, staker, kind).value.0, Outer(stack))
  {
    hide Linear, AccrueRewards, MintNative, ResolveLedger, NativeLedgers;
    var c, asset, outer := tx.target, kind.stakingAsset, Outer(stack);
    var frame := StakingFrame(c, staker, asset);
    var s1 := AccrueRewards(cfg, s, frame, c, staker, asset, kind.rewardPerBlock).value;
    log := AccrueSteps(cfg, s, c, staker, kind, outer);
    var rewardKey := StakingRewardBalance(c, staker, asset);
    var s2 := Put(s1, rewardKey, 0);
    var token := c;
    if Get(s1.storage, rewardKey) != 0 {
      ResolvedIsToken(cfg, s2, asset);
      token := ResolveLedger(cfg, s2, asset).value.token;
    }
    var step := Claim(c, staker, token, tx.txHash);
    LinearStep(cfg, s, log, s1, step, StakingClaim(cfg, s, tx, staker, kind).value.0, outer);
    log := log + [step];
  }

  // ----------------------------------------------------------------------- aspects

  lemma {:induction false} AspectSteps(cfg: Config, s: Store, tx: Transaction, sender: Id, kind: Kind, stack: seq<Id>)
    returns (log: seq<Step>)
    requires WellFormed(cfg) && Indexed(s) && Running(cfg, tx.target, kind, stack) && kind.Aspect?
    requires ExecuteAspect(cfg, s, tx, sender, kind.moduleHash, kind.bundle, stack).Ok?
    ensures Linear(cfg, s, log, ExecuteAspect(cfg, s, tx, sender, kind.moduleHash, kind.bundle, stack).value.0,
                   Outer(stack))
    decreases Idle(cfg, stack), 3
  {
    var m := cfg.modules[kind.moduleHash].ir;
    var method_ := (kind.bundle, tx.selector.name);
    var context := Context(tx.sender, sender, tx.target, cfg.height, 0);
    var env := Env(m, context, SnapshotOf(m, s.storage, tx.target, kind.bundle), ForeignOf(s.storage));
    var run := ExecuteProjection(env, tx.budget, method_,
                                 seq(|tx.args|, i requires 0 <= i < |tx.args| => ValueOf(tx.args[i])));
    var host := Host(m, kind.bundle, m.policies[method_], Frame(tx.target, AspectScope(m, tx.target, kind.bundle)));
    log := ReplaySteps(cfg, s, tx, host, run.trace, stack);
  }

  /** A host operation of the running aspect; its own writes act for it, its calls for others. */
  lemma {:induction false} OpSteps(cfg: Config, s: Store, tx: Transaction, host: Host, op: HostOp, stack: seq<Id>)
    returns (log: seq<Step>)
    requires WellFormed(cfg) && Indexed(s) && stack != [] && stack[|stack| - 1] == tx.target
             && tx.target !in Outer(stack)
    requires tx.target in cfg.contracts
    requires host.frame.contract == tx.target && ApplyOp(cfg, s, tx, host, op, stack).Ok?
    ensures Linear(cfg, s, log, ApplyOp(cfg, s, tx, host, op, stack).value, Outer(stack))
    decreases Idle(cfg, stack), 1
  {
    hide Linear;
    var outer := Outer(stack);
    LinearNil(cfg, s, outer);
    log := [];
    match op
    case SetState(state, key, value) =>
      var k := AspectKey(host.ir, tx.target, host.bundle, state, key).value;
      OwnStep(cfg, s, log, s, tx.target, k, Stored(value).value, outer);
      log := log + [Own(tx.target, k, Stored(value).value)];
    case EmitText(_) =>
      NoteStep(cfg, s, log, s, tx.target, tx.txHash, "aspect", outer);
      log := log + [Note(tx.target, tx.txHash, "aspect")];
    case Call(contract, name, args) =>
      var call := HostCall(cfg, cfg.contracts[contract], name, args).value;
      var child := tx.(target := contract, selector := call.0, args := call.1);
      log := CallSteps(cfg, s, child, host.frame.contract, stack);
      LinearOuter(cfg, s, log, ExecuteCall(cfg, s, child, host.frame.contract, stack).value.0, stack);
    case VerifyPermit(owner, spender, asset, amount, certificate) =>
      var nonce := PermitNonce(certificate, cfg.chainId, tx.target, owner, spender, asset, amount).value;
      LinearStep(cfg, s, log, s, UseCertificate(nonce), s.(certificates := s.certificates + {nonce}), outer);
      log := log + [UseCertificate(nonce)];
    case AppendOutbox(chain, contract, id, recipient, asset, amount) =>
      var message := Message(cfg.chainId, tx.target, cfg.height, chain, contract, id, recipient, asset, amount);
      var s1 := s.(outboundIds := s.outboundIds + {id}, outbox := s.outbox + [message]);
      LinearStep(cfg, s, log, s, Append(message, true), s1, outer);
      log := log + [Append(message, true)];
      NoteStep(cfg, s, log, s1, tx.target, tx.txHash, "queued", outer);
      log := log + [Note(tx.target, tx.txHash, "queued")];
    case _ =>
  }

  lemma {:induction false} ReplaySteps(cfg: Config, s: Store, tx: Transaction, host: Host, ops: seq<HostOp>,
                                       stack: seq<Id>)
    returns (log: seq<Step>)
    requires WellFormed(cfg) && Indexed(s) && stack != [] && stack[|stack| - 1] == tx.target
             && tx.target !in Outer(stack)
    requires tx.target in cfg.contracts
    requires host.frame.contract == tx.target && Replay(cfg, s, tx, host, ops, stack).Ok?
    ensures Linear(cfg, s, log, Replay(cfg, s, tx, host, ops, stack).value, Outer(stack))
    decreases Idle(cfg, stack), 2, |ops|
  {
    LinearNil(cfg, s, Outer(stack));
    log := [];
    if ops != [] {
      var s1 := ApplyOp(cfg, s, tx, host, ops[0], stack).value;
      var first := OpSteps(cfg, s, tx, host, ops[0], stack);
      LinearIndexed(cfg, s, first, s1, Outer(stack));
      var rest := ReplaySteps(cfg, s1, tx, host, ops[1..], stack);
      LinearJoin(cfg, s, first, s1, rest, Replay(cfg, s, tx, host, ops, stack).value, Outer(stack));
      log := first + rest;
    }
  }
}
