/** Constant-product pools: what swaps can and cannot extract, and that reserves are backed by balances. */
module Pools {
  import opened Common
  import opened Ledger
  import opened Executor
  import opened Steps
  import opened Supply
  import opened Linearize

  // ------------------------------------------------------------------ arithmetic

  /** What is left after the fee is at most the input, and splitting an input does not raise it. */
  lemma AfterFeeFacts(a: nat, b: nat, feeBps: nat)
    requires feeBps <= BPS
    ensures a * (BPS - feeBps) / BPS <= a
    ensures a * (BPS - feeBps) / BPS + b * (BPS - feeBps) / BPS <= (a + b) * (BPS - feeBps) / BPS
  {
    var k := BPS - feeBps;
    assert a * k <= a * BPS by { MulLess(k, BPS, a); }
    assert (a + b) * k == a * k + b * k;
  }

  /** A swap that goes through: its output, in terms of the fee-reduced input. */
  predicate Quoted(reserveIn: nat, reserveOut: nat, amountIn: nat, net: nat, out: nat) {
    0 < reserveIn && net <= amountIn && 0 < out < reserveOut && out * reserveIn <= net * (reserveOut - out)
  }

  lemma QuoteFacts(reserveIn: nat, reserveOut: nat, amountIn: nat, feeBps: nat) returns (net: nat)
    requires Quote(reserveIn, reserveOut, amountIn, feeBps).Ok?
    ensures feeBps <= BPS && net == amountIn * (BPS - feeBps) / BPS
    ensures var q := Quote(reserveIn, reserveOut, amountIn, feeBps).value;
            Quoted(reserveIn, reserveOut, amountIn, net, q.0) && q.1 == amountIn - net
  {
    AfterFeeFacts(amountIn, 0, feeBps);
    net := amountIn * (BPS - feeBps) / BPS;
    var out := Quote(reserveIn, reserveOut, amountIn, feeBps).value.0;
    QuotientBounds(reserveIn, reserveOut, net, out);
  }

  lemma QuotientBounds(x: nat, y: nat, net: nat, out: nat)
    requires x > 0 && out == y * net / (x + net) && 0 < out <= y
    ensures out < y && out * x <= net * (y - out)
  {
    FloorFacts(y * net, x + net);
    assert out * (x + net) == out * x + out * net;
    assert net * (y - out) == y * net - out * net;
    assert y * (x + net) == y * x + y * net;
    MulLess(1, y, x);
    Below(out, y, x + net);
  }

  /** The product of the reserves does not shrink. */
  lemma QuotedProduct(x: nat, y: nat, a: nat, net: nat, out: nat)
    requires Quoted(x, y, a, net, out)
    ensures (x + a) * (y - out) >= x * y
  {
    MulLess(net, a, y - out);
    assert (x + a) * (y - out) == x * y - x * out + a * (y - out);
    assert x * out == out * x;
  }

  /** Swapping the output, or any part of it, straight back returns at most the input. */
  lemma RoundTripNeverProfits(x: nat, y: nat, a: nat, back: nat, feeBps: nat)
    requires Quote(x, y, a, feeBps).Ok? && back <= Quote(x, y, a, feeBps).value.0
    requires Quote(y - Quote(x, y, a, feeBps).value.0, x + a, back, feeBps).Ok?
    ensures Quote(y - Quote(x, y, a, feeBps).value.0, x + a, back, feeBps).value.0 <= a
  {
    var net := QuoteFacts(x, y, a, feeBps);
    var out := Quote(x, y, a, feeBps).value.0;
    var net' := QuoteFacts(y - out, x + a, back, feeBps);
    hide Quote;
    RoundTrip(x, y, a, net, out, back, net', Quote(y - out, x + a, back, feeBps).value.0);
  }

  lemma RoundTrip(x: nat, y: nat, a: nat, net: nat, out: nat, back: nat, net': nat, out': nat)
    requires Quoted(x, y, a, net, out) && back <= out && Quoted(y - out, x + a, back, net', out')
    ensures out' <= a
  {
    MulLess(net, a, y - out);
    Distribute(x - 1, 1, out);
    Distribute(x - 1, a + 1, net');
    Distribute(x + a - out', out', net');
    NoGain(y - out, x - 1, a, net', out, out');
  }

  lemma NoGain(p: nat, q: nat, a: nat, net: nat, out: nat, out': nat)
    requires p > 0 && net <= out && out * q + out <= a * p && out' * p + out' * net <= net * q + net * (a + 1)
    ensures out' <= a
  {
    MulLess(net, out, q);
    Distribute(p, net, out');
    Distribute(p, net, a + 1);
    Distribute(a, 1, p);
    Below(out', a + 1, p + net);
  }

  /** Splitting a swap in two never yields more than one swap of the whole, unless the whole overflows. */
  lemma SplitNeverGains(x: nat, y: nat, a: nat, b: nat, feeBps: nat)
    requires Quote(x, y, a, feeBps).Ok?
    requires Quote(x + a, y - Quote(x, y, a, feeBps).value.0, b, feeBps).Ok?
    ensures var whole := Quote(x, y, a + b, feeBps);
            if whole.Ok? then Quote(x, y, a, feeBps).value.0 + Quote(x + a, y - Quote(x, y, a, feeBps).value.0, b,
                                                                     feeBps).value.0 <= whole.value.0
            else whole.error == Overflow
  {
    var net1 := QuoteFacts(x, y, a, feeBps);
    var out1 := Quote(x, y, a, feeBps).value.0;
    var net2 := QuoteFacts(x + a, y - out1, b, feeBps);
    var out2 := Quote(x + a, y - out1, b, feeBps).value.0;
    AfterFeeFacts(a, b, feeBps);
    var net := (a + b) * (BPS - feeBps) / BPS;
    Split(x, y, a, b, net1, out1, net2, out2, net);
    FloorAtLeast(y * net, x + net, out1 + out2);
    QuotientBelow(x, y, net);
  }

  lemma QuotientBelow(x: nat, y: nat, net: nat)
    requires x > 0
    ensures y * net / (x + net) <= y
  {
    FloorFacts(y * net, x + net);
    MulLess(net, x + net, y);
    assert (y + 1) * (x + net) == y * (x + net) + (x + net);
    Below(y * net / (x + net), y + 1, x + net);
  }

  lemma Split(x: nat, y: nat, a: nat, b: nat, net1: nat, out1: nat, net2: nat, out2: nat, net: nat)
    requires Quoted(x, y, a, net1, out1) && Quoted(x + a, y - out1, b, net2, out2) && net1 + net2 <= net
    ensures (out1 + out2) * (x + net) <= y * net
  {
    var left := y - out1 - out2;
    MulLess(net1, a, out2);
    MulLess(net1 + net2, net, left);
    assert net1 * (y - out1) == net1 * left + net1 * out2;
    assert out2 * (x + a) == out2 * x + out2 * a;
    assert out1 * x + out2 * x <= net1 * left + net2 * left;
    assert (net1 + net2) * left == net1 * left + net2 * left;
    assert (out1 + out2) * (x + net) == out1 * x + out2 * x + (out1 + out2) * net;
    assert y * net == (out1 + out2) * net + left * net;
  }

  // ------------------------------------------------------------------- every log

  function ReserveA(cfg: Config, m: Storage, pool: Id): nat
    requires IsPool(cfg, pool)
  {
    Get(m, Reserve(pool, cfg.contracts[pool].assetA))
  }

  function ReserveB(cfg: Config, m: Storage, pool: Id): nat
    requires IsPool(cfg, pool)
  {
    Get(m, Reserve(pool, cfg.contracts[pool].assetB))
  }

  /** The product has not shrunk, and reserves that were not empty are not empty. */
  ghost predicate Solvent(cfg: Config, m: Storage, m': Storage, pool: Id)
    requires IsPool(cfg, pool)
  {
    && ReserveA(cfg, m, pool) * ReserveB(cfg, m, pool) <= ReserveA(cfg, m', pool) * ReserveB(cfg, m', pool)
    && (ReserveA(cfg, m, pool) > 0 && ReserveB(cfg, m, pool) > 0 ==>
        ReserveA(cfg, m', pool) > 0 && ReserveB(cfg, m', pool) > 0)
  }

  lemma SwapSolvent(cfg: Config, s: Store, p: Id, input: Id, amountIn: nat, amountOut: nat, pool: Id)
    requires WellFormed(cfg) && IsPool(cfg, pool) && ApplySwap(cfg, s, p, input, amountIn, amountOut).Ok?
    ensures Solvent(cfg, s.storage, ApplySwap(cfg, s, p, input, amountIn, amountOut).value.storage, pool)
  {
    hide Quote;
    var kind := cfg.contracts[p];
    var reserveIn, reserveOut := Get(s.storage, Reserve(p, input)), Get(s.storage, Reserve(p, OutputOf(kind, input)));
    var net := QuoteFacts(reserveIn, reserveOut, amountIn, kind.feeBps);
    QuotedProduct(reserveIn, reserveOut, amountIn, net, amountOut);
    if p == pool { Commute(reserveIn, reserveOut); Commute(reserveIn + amountIn, reserveOut - amountOut); }
  }

  lemma AddSolvent(cfg: Config, s: Store, p: Id, amountA: nat, amountB: nat, pool: Id)
    requires WellFormed(cfg) && IsPool(cfg, pool) && ApplyAdd(cfg, s, p, amountA, amountB).Ok?
    ensures Solvent(cfg, s.storage, ApplyAdd(cfg, s, p, amountA, amountB).value.storage, pool)
  {
    if p == pool {
      var x, y := ReserveA(cfg, s.storage, pool), ReserveB(cfg, s.storage, pool);
      MulLess(x, x + amountA, y);
      MulLess(y, y + amountB, x + amountA);
    }
  }

  /** Steps other than swaps and additions leave all reserves alone. */
  lemma ReservesKept(cfg: Config, s: Store, step: Step, pool: Id, asset: Id)
    requires ApplyStep(cfg, s, step).Ok? && !step.SwapReserves? && !step.AddReserves?
    ensures Get(ApplyStep(cfg, s, step).value.storage, Reserve(pool, asset)) == Get(s.storage, Reserve(pool, asset))
  {
    hide TransferNative, AccrueRewards, MintNative, RewardsDue, BridgeCertified, NativeLedgers;
    match step
    case Move(t, from, to, a, amount) => TransferWrites(s, t, from, to, a, amount);
    case Accrue(c, staker) => var due := AccrueWrites(cfg, s, c, staker);
    case Claim(c, staker, t, _) =>
      var a := cfg.contracts[c].stakingAsset;
      var rewardKey := StakingRewardBalance(c, staker, a);
      var claimed := Get(s.storage, rewardKey);
      if claimed != 0 { MintWrites(Put(s, rewardKey, 0), t, staker, a, claimed); }
    case Redeem(_, t, _, recipient, a, amount, _, _) => MintWrites(s, t, recipient, a, amount);
    case _ =>
  }

  lemma StepSolvent(cfg: Config, s: Store, step: Step, pool: Id)
    requires WellFormed(cfg) && IsPool(cfg, pool) && ApplyStep(cfg, s, step).Ok?
    ensures Solvent(cfg, s.storage, ApplyStep(cfg, s, step).value.storage, pool)
  {
    hide ApplyMove, ApplySwap, ApplyAdd, ApplyAccrue, ApplyClaim, ApplyRedeem;
    match step
    case SwapReserves(p, input, amountIn, amountOut) => SwapSolvent(cfg, s, p, input, amountIn, amountOut, pool);
    case AddReserves(p, amountA, amountB) => AddSolvent(cfg, s, p, amountA, amountB, pool);
    case _ =>
      ReservesKept(cfg, s, step, pool, cfg.contracts[pool].assetA);
      ReservesKept(cfg, s, step, pool, cfg.contracts[pool].assetB);
  }

  /** Whatever a call tree does, no pool's product shrinks and no reserve is emptied. */
  lemma {:induction false} LogSolvent(cfg: Config, s: Store, log: seq<Step>, pool: Id)
    requires WellFormed(cfg) && IsPool(cfg, pool) && RunSteps(cfg, s, log).Ok?
    ensures Solvent(cfg, s.storage, RunSteps(cfg, s, log).value.storage, pool)
    decreases |log|
  {
    if log != [] {
      StepSolvent(cfg, s, log[0], pool);
      LogSolvent(cfg, ApplyStep(cfg, s, log[0]).value, log[1..], pool);
    }
  }

  /** A pool that gave one asset away has not given the other away as well. */
  lemma NothingForNothing(cfg: Config, m: Storage, m': Storage, pool: Id)
    requires IsPool(cfg, pool) && Solvent(cfg, m, m', pool)
    requires ReserveA(cfg, m, pool) > 0 && ReserveB(cfg, m, pool) > 0
    ensures ReserveA(cfg, m', pool) < ReserveA(cfg, m, pool) ==> ReserveB(cfg, m', pool) > ReserveB(cfg, m, pool)
    ensures ReserveB(cfg, m', pool) < ReserveB(cfg, m, pool) ==> ReserveA(cfg, m', pool) > ReserveA(cfg, m, pool)
  {
    var x, y, x', y' := ReserveA(cfg, m, pool), ReserveB(cfg, m, pool), ReserveA(cfg, m', pool),
      ReserveB(cfg, m', pool);
    if x' < x { MulLess(x' + 1, x, y); assert (x' + 1) * y == y * x' + y; Below(y, y', x'); }
    if y' < y { MulLess(y' + 1, y, x); assert (y' + 1) * x == x * y' + x; Below(x, x', y'); }
  }

  // --------------------------------------------------------------------- custody

  /** By how much an account of a native ledger exceeds what a contract records for it. */
  function Surplus(m: Storage, token: Id, account: Id, asset: Id, recorded: nat): int {
    Get(m, Balance(token, account, asset)) - recorded
  }

  /** A committed swap between native assets moves the pool's balances by exactly the reserve changes. */
  lemma SwapCustody(cfg: Config, s: Store, tx: Transaction, sender: Id, kind: Kind, stack: seq<Id>, tokenIn: Id,
                    tokenOut: Id)
    requires kind.AmmPool? && kind.assetA != kind.assetB && Supplied(cfg, s.storage)
             && PoolSwap(cfg, s, tx, sender, kind, stack).Ok?
    requires |tx.args| == 3 && tx.args[0].AssetArg?
    requires ResolveLedger(cfg, s, tx.args[0].id) == Ok(Native(tokenIn))
    requires ResolveLedger(cfg, s, OutputOf(kind, tx.args[0].id)) == Ok(Native(tokenOut))
    ensures var pool, input, output := tx.target, tx.args[0].id, OutputOf(kind, tx.args[0].id);
            var m, m' := s.storage, PoolSwap(cfg, s, tx, sender, kind, stack).value.0.storage;
            && sender != pool
            && Surplus(m', tokenIn, pool, input, Get(m', Reserve(pool, input)))
               == Surplus(m, tokenIn, pool, input, Get(m, Reserve(pool, input)))
            && Surplus(m', tokenOut, pool, output, Get(m', Reserve(pool, output)))
               == Surplus(m, tokenOut, pool, output, Get(m, Reserve(pool, output)))
  {
    hide PoolSwap, Quote, TransferAsset, Supplied, ResolveLedger, SettleSwap;
    var x, y, out, fee, s1, s2 := SwapParts(cfg, s, tx, sender, kind, stack);
    var pool, input, amountIn := tx.target, tx.args[0].id, tx.args[1].amount;
    var output := OutputOf(kind, input);
    var net := QuoteFacts(Get(s.storage, Reserve(pool, input)), Get(s.storage, Reserve(pool, output)), amountIn,
                          kind.feeBps);
    SwapMoves(cfg, s, tx, tokenIn, tokenOut, sender, pool, input, amountIn, output, out, s1, s2, stack);
    var newIn, newOut := Get(s.storage, Reserve(pool, input)) + amountIn, Get(s.storage, Reserve(pool, output)) - out;
    SettledSwap(s2, Frame(pool, {Reserve(pool, input), Reserve(pool, output), AmmFeeCollected(pool, input)}), pool,
                input, output, newIn, newOut,
                fee, out, tx.txHash, tokenIn, tokenOut);
  }

  /** The two native transfers of a swap. */
  lemma SwapMoves(cfg: Config, s: Store, tx: Transaction, tokenIn: Id, tokenOut: Id, sender: Id, pool: Id, input: Id,
                  amountIn: nat, output: Id, out: nat,
                  s1: Store, s2: Store, stack: seq<Id>)
    requires Supplied(cfg, s.storage) && amountIn > 0 && out > 0 && input != output
    requires TransferAsset(cfg, s, tx, Native(tokenIn), sender, pool, input, amountIn, stack) == Ok(s1)
    requires TransferAsset(cfg, s1, tx, Native(tokenOut), pool, sender, output, out, stack) == Ok(s2)
    ensures sender != pool
    ensures Get(s2.storage, Balance(tokenIn, pool, input)) == Get(s.storage, Balance(tokenIn, pool, input)) + amountIn
    ensures Get(s2.storage, Balance(tokenOut, pool, output)) == Get(s.storage, Balance(tokenOut, pool, output)) - out
  {
    assert Balanced(s.storage, tokenIn, input);
    TransferExact(s, tokenIn, sender, pool, input, amountIn);
    TransferWrites(s, tokenIn, sender, pool, input, amountIn);
    TransferWrites(s1, tokenOut, pool, sender, output, out);
  }

  lemma SettledSwap(s: Store, frame: Frame, pool: Id, input: Id, output: Id, newIn: nat, newOut: nat, fee: nat,
                    out: nat, txHash: string,
                    tokenIn: Id, tokenOut: Id)
    requires input != output && SettleSwap(s, frame, pool, input, output, newIn, newOut, fee, out, txHash).Ok?
    ensures var m' := SettleSwap(s, frame, pool, input, output, newIn, newOut, fee, out, txHash).value.0.storage;
            && Get(m', Reserve(pool, input)) == newIn && Get(m', Reserve(pool, output)) == newOut
            && Get(m', Balance(tokenIn, pool, input)) == Get(s.storage, Balance(tokenIn, pool, input))
            && Get(m', Balance(tokenOut, pool, output)) == Get(s.storage, Balance(tokenOut, pool, output))
  {
    hide LpBalanced, InScope;
  }

  /** A committed deposit of native assets moves the pool's balances by exactly the reserve changes. */
  lemma AddCustody(cfg: Config, s: Store, tx: Transaction, sender: Id, kind: Kind, stack: seq<Id>, tokenA: Id,
                   tokenB: Id)
    requires kind.AmmPool? && kind.assetA != kind.assetB && Supplied(cfg, s.storage)
             && PoolAddLiquidity(cfg, s, tx, sender, kind, stack).Ok?
    requires ResolveLedger(cfg, s, kind.assetA) == Ok(Native(tokenA))
             && ResolveLedger(cfg, s, kind.assetB) == Ok(Native(tokenB))
    ensures var pool, a, b := tx.target, kind.assetA, kind.assetB;
            var m, m' := s.storage, PoolAddLiquidity(cfg, s, tx, sender, kind, stack).value.0.storage;
            && sender != pool
            && Surplus(m', tokenA, pool, a, Get(m', Reserve(pool, a)))
               == Surplus(m, tokenA, pool, a, Get(m, Reserve(pool, a)))
            && Surplus(m', tokenB, pool, b, Get(m', Reserve(pool, b)))
               == Surplus(m, tokenB, pool, b, Get(m, Reserve(pool, b)))
  {
    hide PoolAddLiquidity, TransferAsset, Supplied, ResolveLedger, SettleLp;
    var x, y, s1, s2 := AddParts(cfg, s, tx, sender, kind, stack);
    var pool, a, b, amountA, amountB := tx.target, kind.assetA, kind.assetB, tx.args[0].amount, tx.args[1].amount;
    AddMoves(cfg, s, tx, tokenA, tokenB, sender, pool, a, amountA, b, amountB, s1, s2, stack);
    var keyA, keyB := Reserve(pool, a), Reserve(pool, b);
    var s4 := Put(Put(s2, keyA, Get(s.storage, keyA) + amountA), keyB, Get(s.storage, keyB) + amountB);
    SettledLp(s4, Frame(pool, {keyA, keyB, LpSupply(pool), LpBalance(pool, sender)}), pool, sender,
              Get(s.storage, LpSupply(pool)),
              Get(s.storage, LpBalance(pool, sender)), amountA + amountB, tx.txHash);
  }

  lemma AddMoves(cfg: Config, s: Store, tx: Transaction, tokenA: Id, tokenB: Id, sender: Id, pool: Id, a: Id,
                 amountA: nat, b: Id, amountB: nat,
                 s1: Store, s2: Store, stack: seq<Id>)
    requires Supplied(cfg, s.storage) && amountA > 0 && a != b
    requires TransferAsset(cfg, s, tx, Native(tokenA), sender, pool, a, amountA, stack) == Ok(s1)
    requires TransferAsset(cfg, s1, tx, Native(tokenB), sender, pool, b, amountB, stack) == Ok(s2)
    ensures sender != pool
    ensures Get(s2.storage, Balance(tokenA, pool, a)) == Get(s.storage, Balance(tokenA, pool, a)) + amountA
    ensures Get(s2.storage, Balance(tokenB, pool, b)) == Get(s.storage, Balance(tokenB, pool, b)) + amountB
  {
    assert Balanced(s.storage, tokenA, a);
    TransferExact(s, tokenA, sender, pool, a, amountA);
    TransferWrites(s, tokenA, sender, pool, a, amountA);
    TransferWrites(s1, tokenB, sender, pool, b, amountB);
  }

  lemma SettledLp(s: Store, frame: Frame, pool: Id, provider: Id, supply: nat, held: nat, minted: nat, txHash: string)
    requires SettleLp(s, frame, pool, provider, supply, held, minted, txHash).Ok?
    ensures var m' := SettleLp(s, frame, pool, provider, supply, held, minted, txHash).value.0.storage;
            forall k: StateKey | k.Reserve? || k.Balance? :: Get(m', k) == Get(s.storage, k)
  {
    hide LpBalanced, InScope;
  }
}
