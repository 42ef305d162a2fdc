/** Storage as it is updated in place: guarded writes, the supply check, and native transfers and mints. */
module TokenLedger {
  import opened Common
  import opened Ledger
  import opened Executor

  /** A store with the given storage and nothing else. */
  function Bare(m: Storage): Store {
    Store(m, map[], {}, {}, [], [])
  }

  class GuardedStorage {
    var storage: Storage

    constructor (storage: Storage)
      ensures this.storage == storage
    {
      this.storage := storage;
    }

    /** A write outside the frame's contract or scope changes nothing. */
    method StateSet(frame: Frame, k: StateKey, v: nat) returns (r: Result<(), Error>)
      modifies this
      ensures r.Ok? <==> k.contract == frame.contract && InScope(frame.scope, k)
      ensures storage == (if r.Ok? then old(storage)[k := v] else old(storage))
      ensures var w := Write(Bare(old(storage)), frame, k, v); r.Ok? <==> w.Ok?
      ensures var w := Write(Bare(old(storage)), frame, k, v); r.Err? ==> w == Err(r.error)
    {
      if k.contract != frame.contract { return Err(ContractIsolationViolation); }
      if !InScope(frame.scope, k) { return Err(WriteScopeViolation); }
      storage := storage[k := v];
      r := Ok(());
    }

    /** Adds up the balances with overflow checks and compares with the recorded supply. */
    method TokenInvariantsHold(token: Id, asset: Id) returns (ok: bool)
      ensures ok <==> Balanced(storage, token, asset)
    {
      hide SumKeys, KeysOf;
      ghost var keys := KeysOf(storage, BalancesOf(token, asset));
      var sum := 0;
      ghost var done: set<StateKey> := {};
      var rest := KeysOf(storage, BalancesOf(token, asset));
      NothingSummed(storage);
      while rest != {}
        invariant Partitioned(keys, done, rest) && sum == SumKeys(storage, done) <= U128_MAX
        decreases |rest|
      {
        var k :| k in rest;
        AddOne(storage, keys, done, rest, k);
        if sum + Get(storage, k) > U128_MAX { return false; }
        sum := sum + Get(storage, k);
        rest, done := rest - {k}, done + {k};
      }
      assert done == keys;
      ok := sum == Get(storage, TotalSupply(token, asset));
    }

    /** Moves a balance; an error may leave the two balances half written. */
    method TransferTokenBalance(token: Id, from: Id, to: Id, asset: Id, amount: nat) returns (r: Result<(), Error>)
      modifies this
      ensures var spec := TransferNative(Bare(old(storage)), token, from, to, asset, amount);
              if r.Ok? then spec == Ok(Bare(storage)) else spec == Err(r.error)
    {
      var fromKey, toKey := Balance(token, from, asset), Balance(token, to, asset);
      var frame := Frame(token, {fromKey, toKey});
      var held := Get(storage, fromKey);
      if held < amount { return Err(InsufficientBalance); }
      var had := Get(storage, toKey);
      if had + amount > U128_MAX { return Err(Overflow); }
      var first := StateSet(frame, fromKey, held - amount);
      if first.Err? { return first; }
      var second := StateSet(frame, toKey, had + amount);
      if second.Err? { return second; }
      var holds := TokenInvariantsHold(token, asset);
      if !holds { return Err(InvariantViolation); }
      r := Ok(());
    }

    method MintTokenBalance(token: Id, to: Id, asset: Id, amount: nat) returns (r: Result<(), Error>)
      modifies this
      ensures var spec := MintNative(Bare(old(storage)), token, to, asset, amount);
              if r.Ok? then spec == Ok(Bare(storage)) else spec == Err(r.error)
    {
      var supplyKey, toKey := TotalSupply(token, asset), Balance(token, to, asset);
      var frame := Frame(token, {supplyKey, toKey});
      var supply, had := Get(storage, supplyKey), Get(storage, toKey);
      if supply + amount > U128_MAX { return Err(Overflow); }
      if had + amount > U128_MAX { return Err(Overflow); }
      var first := StateSet(frame, supplyKey, supply + amount);
      if first.Err? { return first; }
      var second := StateSet(frame, toKey, had + amount);
      if second.Err? { return second; }
      var holds := TokenInvariantsHold(token, asset);
      if !holds { return Err(InvariantViolation); }
      r := Ok(());
    }

    /** Looks the asset's ledger up among the recorded supplies and the aspect contracts. */
    method ResolveAssetLedger(cfg: Config, asset: Id) returns (r: Result<LedgerRef, Error>)
      ensures r == ResolveLedger(cfg, Bare(storage), asset)
    {
      var natives: set<Id> := {};
      var rest := storage.Keys;
      while rest != {}
        invariant rest <= storage.Keys
        invariant natives == set k | k in storage && k !in rest && k.TotalSupply? && k.asset == asset
                               && IsToken(cfg, k.contract) :: k.contract
        decreases |rest|
      {
        var k :| k in rest;
        if k.TotalSupply? && k.asset == asset && IsToken(cfg, k.contract) { natives := natives + {k.contract}; }
        rest := rest - {k};
      }
      assert natives == NativeLedgers(cfg, storage, asset);
      if |natives| > 1 { return Err(InvalidPoolAsset); }
      var aspect := AspectLedger(cfg, asset);
      if natives == {} && !aspect { return Err(InvalidPoolAsset); }
      if natives == {} { return Ok(AspectToken(asset)); }
      if aspect { return Err(InvalidPoolAsset); }
      var token :| token in natives;
      OneOnly(natives, token);
      r := Ok(Native(token));
    }
  }

  /** `done` has been added up and `rest` is still to come. */
  predicate Partitioned(keys: set<StateKey>, done: set<StateKey>, rest: set<StateKey>) {
    rest <= keys && done == keys - rest
  }

  lemma NothingSummed(m: Storage)
    ensures SumKeys(m, {}) == 0
  {
  }

  lemma AddOne(m: Storage, keys: set<StateKey>, done: set<StateKey>, rest: set<StateKey>, k: StateKey)
    requires Partitioned(keys, done, rest) && k in rest
    ensures Partitioned(keys, done + {k}, rest - {k})
    ensures SumKeys(m, done + {k}) == SumKeys(m, done) + Get(m, k) <= SumKeys(m, keys)
  {
    SumRemove(m, done + {k}, k);
    assert (done + {k}) - {k} == done;
    SumGrows(m, done + {k}, keys);
  }

  lemma OneOnly(s: set<Id>, x: Id)
    requires |s| <= 1 && x in s
    ensures s == {x}
  {
    assert |s - {x}| == 0;
  }

  lemma {:induction false} SumGrows(m: Storage, some: set<StateKey>, all: set<StateKey>)
    requires some <= all
    ensures SumKeys(m, some) <= SumKeys(m, all)
    decreases |all - some|
  {
    if k :| k in all && k !in some {
      SumRemove(m, all, k);
      assert all - {k} - some == all - some - {k} && k in all - some;
      SumGrows(m, some, all - {k});
    } else {
      assert some == all;
    }
  }
}
