/** Pending transactions: admission, and ordered draining within a resource limit. */
module Mempool {
  import opened Common
  import opened Ledger
  import opened Order

  datatype Policy = Policy(maxPending: nat, maxPerSender: nat, maxBytes: nat)

  datatype MempoolError =
    | ChainMismatch | InvalidSignature | TransactionExpired | DuplicateTransaction | NonceAlreadyUsed
    | TransactionTooLarge | InsufficientBudget
    | PoolFull | SenderPendingLimitExceeded

  /** What admission reads of a node's state. */
  datatype ChainView = ChainView(chainId: Id, height: nat, nonces: set<(Id, nat)>)

  // ----------------------------------------------------------------- the drain order

  /** By sender, then nonce, then hash. */
  predicate Before(a: Transaction, b: Transaction) {
    if a.sender != b.sender then Leq(a.sender, b.sender)
    else if a.nonce != b.nonce then a.nonce < b.nonce
    else Leq(a.txHash, b.txHash)
  }

  predicate Sorted(txs: seq<Transaction>) {
    forall i, j | 0 <= i < j < |txs| :: Before(txs[i], txs[j])
  }

  predicate DistinctHashes(txs: seq<Transaction>) {
    forall i, j | 0 <= i < j < |txs| :: txs[i].txHash != txs[j].txHash
  }

  function HashesOf(txs: seq<Transaction>): set<string> {
    set i | 0 <= i < |txs| :: txs[i].txHash
  }

  lemma BeforeTotal(a: Transaction, b: Transaction)
    ensures Before(a, b) || Before(b, a)
  {
    LeqTotal(a.sender, b.sender);
    LeqTotal(a.txHash, b.txHash);
  }

  lemma BeforeTransitive(a: Transaction, b: Transaction, c: Transaction)
    requires Before(a, b) && Before(b, c)
    ensures Before(a, c)
  {
    if a.sender != b.sender && b.sender != c.sender {
      LeqTransitive(a.sender, b.sender, c.sender);
      if a.sender == c.sender { LeqAntisymmetric(a.sender, b.sender); }
    }
    if a.sender == b.sender == c.sender && a.nonce == b.nonce == c.nonce {
      LeqTransitive(a.txHash, b.txHash, c.txHash);
    }
  }

  /** Only transactions with the same hash are in both orders. */
  lemma BeforeAntisymmetric(a: Transaction, b: Transaction)
    requires Before(a, b) && Before(b, a)
    ensures a.txHash == b.txHash
  {
    if a.sender != b.sender { LeqAntisymmetric(a.sender, b.sender); }
    if a.sender == b.sender && a.nonce == b.nonce { LeqAntisymmetric(a.txHash, b.txHash); }
  }

  lemma MultisetMember(a: seq<Transaction>, b: seq<Transaction>, x: Transaction)
    requires multiset(a) == multiset(b) && x in a
    ensures x in b
  {
    assert x in multiset(a);
  }

  lemma RemovedAt(a: seq<Transaction>, k: nat)
    requires k < |a|
    ensures multiset(a[..k] + a[k + 1..]) == multiset(a) - multiset{a[k]}
  {
    assert a == a[..k] + [a[k]] + a[k + 1..];
  }

  lemma TailMultiset(a: seq<Transaction>)
    requires a != []
    ensures a == [a[0]] + a[1..] && multiset(a[1..]) == multiset(a) - multiset{a[0]}
  {
  }

  lemma TailSorted(a: seq<Transaction>)
    requires a != [] && Sorted(a) && DistinctHashes(a)
    ensures Sorted(a[1..]) && DistinctHashes(a[1..])
  {
    hide Before;
  }

  lemma SortedHead(a: seq<Transaction>, b: seq<Transaction>)
    requires a != [] && Sorted(a) && Sorted(b) && DistinctHashes(b) && multiset(a) == multiset(b)
    ensures b != [] && a[0] == b[0]
  {
    hide Before;
    MultisetMember(a, b, a[0]);
    MultisetMember(b, a, b[0]);
    var i :| 0 <= i < |b| && b[i] == a[0];
    var j :| 0 <= j < |a| && a[j] == b[0];
    if i != 0 && j != 0 { BeforeAntisymmetric(a[0], b[0]); }
  }

  /** Distinct transactions have one sorted arrangement, whatever order they came in. */
  lemma {:induction false} SortedUnique(a: seq<Transaction>, b: seq<Transaction>)
    requires Sorted(a) && Sorted(b) && DistinctHashes(a) && DistinctHashes(b) && multiset(a) == multiset(b)
    ensures a == b
    decreases |a|
  {
    hide Sorted, DistinctHashes;
    if a == [] {
      assert |multiset(b)| == 0;
    } else {
      SortedHead(a, b);
      TailMultiset(a);
      TailMultiset(b);
      TailSorted(a);
      TailSorted(b);
      SortedUnique(a[1..], b[1..]);
    }
  }

  /** A sorted rearrangement. */
  predicate Arranges(sorted: seq<Transaction>, txs: seq<Transaction>) {
    Sorted(sorted) && multiset(sorted) == multiset(txs)
  }

  /** Puts one transaction into its place. */
  method Place(sorted: seq<Transaction>, tx: Transaction) returns (r: seq<Transaction>)
    requires Sorted(sorted)
    ensures Arranges(r, sorted + [tx])
  {
    hide Before, Sorted, Arranges;
    var k := |sorted|;
    while k > 0 && !Before(sorted[k - 1], tx)
      invariant 0 <= k <= |sorted|
      invariant forall i | k <= i < |sorted| :: Before(tx, sorted[i])
    {
      BeforeTotal(sorted[k - 1], tx);
      k := k - 1;
    }
    r := sorted[..k] + [tx] + sorted[k..];
    PlaceArranges(sorted, tx, k);
  }

  lemma PlaceArranges(sorted: seq<Transaction>, tx: Transaction, k: nat)
    requires Sorted(sorted) && k <= |sorted| && (k > 0 ==> Before(sorted[k - 1], tx))
             && forall i | k <= i < |sorted| :: Before(tx, sorted[i])
    ensures Arranges(sorted[..k] + [tx] + sorted[k..], sorted + [tx])
  {
    hide Before;
    forall i | 0 <= i < k ensures Before(sorted[i], tx) {
      if i < k - 1 { BeforeTransitive(sorted[i], sorted[k - 1], tx); }
    }
    PlaceSorted(sorted, tx, k);
    assert sorted == sorted[..k] + sorted[k..];
  }

  lemma PlaceSorted(sorted: seq<Transaction>, tx: Transaction, k: nat)
    requires Sorted(sorted) && k <= |sorted|
    requires (forall i | 0 <= i < k :: Before(sorted[i], tx)) && forall i | k <= i < |sorted| :: Before(tx, sorted[i])
    ensures Sorted(sorted[..k] + [tx] + sorted[k..])
  {
    hide Before;
  }

  method SortTransactions(txs: seq<Transaction>) returns (r: seq<Transaction>)
    ensures Arranges(r, txs)
  {
    r := [];
    for i := 0 to |txs|
      invariant Arranges(r, txs[..i])
    {
      assert txs[..i + 1] == txs[..i] + [txs[i]];
      r := Place(r, txs[i]);
    }
    assert txs[..|txs|] == txs;
  }

  // --------------------------------------------------------------------- selection

  /** Greedy selection in order: what fits is taken, what does not is deferred. */
  function Select(txs: seq<Transaction>, limit: nat): (r: (seq<Transaction>, seq<Transaction>)) {
    if txs == [] then ([], [])
    else
      var last := txs[|txs| - 1];
      var (taken, deferred) := Select(txs[..|txs| - 1], limit);
      if SaturatingAdd64(BlockUnits(taken), TransactionUnits(last)) <= limit then (taken + [last], deferred)
      else (taken, deferred + [last])
  }

  /** `part` is `whole` with some transactions left out. */
  ghost predicate Within(part: seq<Transaction>, whole: seq<Transaction>)
    decreases |whole|
  {
    part == [] || (whole != [] && (
      Within(part, whole[..|whole| - 1])
      || (part[|part| - 1] == whole[|whole| - 1] && Within(part[..|part| - 1], whole[..|whole| - 1]))))
  }

  lemma WithinExtend(part: seq<Transaction>, whole: seq<Transaction>, x: Transaction)
    requires Within(part, whole)
    ensures Within(part, whole + [x]) && Within(part + [x], whole + [x])
  {
    assert (whole + [x])[..|whole|] == whole && (part + [x])[..|part|] == part;
  }

  lemma UnitsExtend(txs: seq<Transaction>, x: Transaction)
    ensures BlockUnits(txs + [x]) == SaturatingAdd64(BlockUnits(txs), TransactionUnits(x))
  {
    assert (txs + [x])[..|txs|] == txs;
  }

  lemma {:induction false} WithinMembers(part: seq<Transaction>, whole: seq<Transaction>)
    requires Within(part, whole)
    ensures forall x | x in part :: x in whole
    ensures Sorted(whole) ==> Sorted(part)
    ensures DistinctHashes(whole) ==> DistinctHashes(part)
    decreases |whole|
  {
    if part != [] {
      var rest := whole[..|whole| - 1];
      if Within(part, rest) {
        WithinMembers(part, rest);
      } else {
        var before := part[..|part| - 1];
        WithinMembers(before, rest);
        forall x | x in part ensures x in whole {
          if x != part[|part| - 1] { assert x in before; }
        }
        forall i | 0 <= i < |before| ensures Sorted(whole) ==> Before(part[i], part[|part| - 1]) {
          assert before[i] in rest;
        }
        forall i | 0 <= i < |before| ensures DistinctHashes(whole) ==> part[i].txHash != part[|part| - 1].txHash {
          assert before[i] in rest;
        }
      }
    }
  }

  /**
    The selection partitions the list, keeps its order on both sides, and is within the limit as a block is measured.
  */
  lemma {:induction false} SelectFacts(txs: seq<Transaction>, limit: nat)
    ensures var (taken, deferred) := Select(txs, limit);
            && multiset(taken) + multiset(deferred) == multiset(txs)
            && Within(taken, txs) && Within(deferred, txs)
            && BlockUnits(taken) <= limit
    decreases |txs|
  {
    hide Within, BlockUnits, TransactionUnits;
    if txs == [] {
      NothingSelected();
    } else {
      var rest, last := txs[..|txs| - 1], txs[|txs| - 1];
      SelectFacts(rest, limit);
      assert txs == rest + [last];
      var (taken, deferred) := Select(rest, limit);
      WithinExtend(taken, rest, last);
      WithinExtend(deferred, rest, last);
      UnitsExtend(taken, last);
    }
  }

  lemma NothingSelected()
    ensures Within([], []) && BlockUnits([]) == 0
  {
  }

  /** A deferred transaction would have exceeded the limit on top of what had been taken before it. */
  lemma {:induction false} DeferredDoesNotFit(txs: seq<Transaction>, limit: nat, x: Transaction)
    requires x in Select(txs, limit).1
    ensures exists n :: 0 <= n < |txs| && txs[n] == x
              && SaturatingAdd64(BlockUnits(Select(txs[..n], limit).0), TransactionUnits(x)) > limit
    decreases |txs|
  {
    var last := |txs| - 1;
    if x in Select(txs[..last], limit).1 {
      DeferredDoesNotFit(txs[..last], limit, x);
      var n :| 0 <= n < last && txs[n] == x
        && SaturatingAdd64(BlockUnits(Select(txs[..last][..n], limit).0), TransactionUnits(x)) > limit;
      assert txs[..last][..n] == txs[..n];
    } else {
      assert txs[last] == x && SaturatingAdd64(BlockUnits(Select(txs[..last], limit).0), TransactionUnits(x)) > limit;
    }
  }

  // ---------------------------------------------------------------------- the pool

  predicate Admissible(view: ChainView, tx: Transaction) {
    && tx.chainId == view.chainId && tx.signatureOk && (tx.sender, tx.nonce) !in view.nonces
    && (tx.validUntil.Some? ==> tx.validUntil.value > view.height)
  }

  function FromSender(txs: seq<Transaction>, sender: Id): nat {
    if txs == [] then 0 else FromSender(txs[..|txs| - 1], sender) + (if txs[|txs| - 1].sender == sender then 1 else 0)
  }

  function Kept(view: ChainView, txs: seq<Transaction>): seq<Transaction> {
    if txs == [] then []
    else Kept(view, txs[..|txs| - 1]) + (if Admissible(view, txs[|txs| - 1]) then [txs[|txs| - 1]] else [])
  }

  /** Leaving transactions out raises neither the number pending nor any sender's share. */
  lemma {:induction false} WithinCounts(part: seq<Transaction>, whole: seq<Transaction>, sender: Id)
    requires Within(part, whole)
    ensures |part| <= |whole| && FromSender(part, sender) <= FromSender(whole, sender)
    decreases |whole|
  {
    if part != [] {
      if Within(part, whole[..|whole| - 1]) {
        WithinCounts(part, whole[..|whole| - 1], sender);
      } else {
        WithinCounts(part[..|part| - 1], whole[..|whole| - 1], sender);
      }
    }
  }

  lemma {:induction false} KeptWithin(view: ChainView, txs: seq<Transaction>)
    ensures Within(Kept(view, txs), txs)
    ensures forall x | x in txs :: x in Kept(view, txs) <==> Admissible(view, x)
    decreases |txs|
  {
    hide Within, Admissible;
    if txs == [] {
      NothingSelected();
    } else if txs != [] {
      var rest, last := txs[..|txs| - 1], txs[|txs| - 1];
      KeptWithin(view, rest);
      assert txs == rest + [last];
      WithinExtend(Kept(view, rest), rest, last);
      assert Kept(view, rest) + [] == Kept(view, rest);
      forall x | x in txs ensures x in Kept(view, txs) <==> Admissible(view, x) {
        if x != last { assert x in rest; } else if x in Kept(view, rest) { WithinMembers(Kept(view, rest), rest); }
      }
    }
  }

  /** Rearranging changes no sender's share. */
  lemma {:induction false} CountsArranged(a: seq<Transaction>, b: seq<Transaction>, sender: Id)
    requires multiset(a) == multiset(b)
    ensures |a| == |b| && FromSender(a, sender) == FromSender(b, sender)
    decreases |a|
  {
    if a == [] {
      assert |multiset(b)| == 0;
    } else {
      var last := |a| - 1;
      MultisetMember(a, b, a[last]);
      var k :| 0 <= k < |b| && b[k] == a[last];
      RemovedAt(a, last);
      RemovedAt(b, k);
      assert a[..last] + a[last + 1..] == a[..last];
      CountsArranged(a[..last], b[..k] + b[k + 1..], sender);
      CountWithout(b, k, sender);
    }
  }

  lemma {:induction false} CountWithout(txs: seq<Transaction>, k: nat, sender: Id)
    requires k < |txs|
    ensures FromSender(txs, sender)
              == FromSender(txs[..k] + txs[k + 1..], sender) + (if txs[k].sender == sender then 1 else 0)
    decreases |txs|
  {
    var last := |txs| - 1;
    if k == last {
      assert txs[..k] + txs[k + 1..] == txs[..last];
    } else {
      CountWithout(txs[..last], k, sender);
      assert (txs[..k] + txs[k + 1..])[..last - 1] == txs[..last][..k] + txs[..last][k + 1..];
      assert (txs[..k] + txs[k + 1..])[last - 1] == txs[last];
    }
  }

  lemma DistinctArranged(a: seq<Transaction>, b: seq<Transaction>)
    requires multiset(a) == multiset(b) && DistinctHashes(a)
    ensures DistinctHashes(b)
  {
    forall i, j | 0 <= i < j < |b| ensures b[i].txHash != b[j].txHash {
      assert b == b[..i] + [b[i]] + b[i + 1..j] + [b[j]] + b[j + 1..];
      MultisetMember(b, a, b[i]);
      MultisetMember(b, a, b[j]);
      var x :| 0 <= x < |a| && a[x] == b[i];
      var y :| 0 <= y < |a| && a[y] == b[j];
      if b[i] == b[j] {
        assert multiset(b)[b[i]] >= 2;
        OnceOnly(a, x);
      }
    }
  }

  lemma OnceOnly(a: seq<Transaction>, x: nat)
    requires DistinctHashes(a) && x < |a|
    ensures multiset(a)[a[x]] == 1
  {
    assert a == a[..x] + [a[x]] + a[x + 1..];
    assert a[x] !in a[..x] && a[x] !in a[x + 1..];
  }

  class Pool {
    const policy: Policy
    var pending: seq<Transaction>
    var hashes: set<string>

    /** The hash set is that of the pending transactions, which are distinct and within the limits. */
    ghost predicate Valid()
      reads this
    {
      && hashes == HashesOf(pending) && DistinctHashes(pending)
      && |pending| <= policy.maxPending && forall sender :: FromSender(pending, sender) <= policy.maxPerSender
    }

    constructor (policy: Policy)
      ensures Valid() && pending == [] && this.policy == policy
    {
      this.policy := policy;
      pending, hashes := [], {};
    }

    /** Admits a transaction of the given encoded size, or says why not. */
    method Submit(view: ChainView, tx: Transaction, bytes: nat) returns (r: Result<(), MempoolError>)
      requires Valid()
      modifies this
      ensures Valid()
      ensures r.Ok? <==> Admissible(view, tx) && tx.txHash !in old(hashes) && bytes <= policy.maxBytes
                         && tx.budget >= TransactionUnits(tx)
                         && |old(pending)| < policy.maxPending
                         && FromSender(old(pending), tx.sender) < policy.maxPerSender
      ensures pending == (if r.Ok? then old(pending) + [tx] else old(pending))
    {
      if tx.chainId != view.chainId { return Err(MempoolError.ChainMismatch); }
      if !tx.signatureOk { return Err(MempoolError.InvalidSignature); }
      if tx.validUntil.Some? && tx.validUntil.value <= view.height { return Err(MempoolError.TransactionExpired); }
      if tx.txHash in hashes { return Err(DuplicateTransaction); }
      if (tx.sender, tx.nonce) in view.nonces { return Err(NonceAlreadyUsed); }
      if bytes > policy.maxBytes { return Err(TransactionTooLarge); }
      if tx.budget < TransactionUnits(tx) { return Err(InsufficientBudget); }
      if |pending| >= policy.maxPending { return Err(PoolFull); }
      var fromSender := 0;
      for i := 0 to |pending|
        invariant fromSender == FromSender(pending[..i], tx.sender)
      {
        assert pending[..i + 1][..i] == pending[..i];
        if pending[i].sender == tx.sender { fromSender := fromSender + 1; }
      }
      assert pending[..|pending|] == pending;
      if fromSender >= policy.maxPerSender { return Err(SenderPendingLimitExceeded); }
      assert tx.txHash !in HashesOf(pending);
      HashesExtend(pending, tx);
      assert (pending + [tx])[..|pending|] == pending;
      hashes := hashes + {tx.txHash};
      pending := pending + [tx];
      r := Ok(());
    }

    /** Drops what the new state no longer admits. */
    method RetainAdmissible(view: ChainView)
      requires Valid()
      modifies this
      ensures Valid() && pending == Kept(view, old(pending))
    {
      var kept: seq<Transaction>, keptHashes: set<string> := [], {};
      assert pending[..0] == [];
      for i := 0 to |pending|
        invariant pending == old(pending) && hashes == old(hashes)
        invariant kept == Kept(view, pending[..i]) && keptHashes == HashesOf(kept)
      {
        assert pending[..i + 1][..i] == pending[..i];
        if Admissible(view, pending[i]) {
          HashesExtend(kept, pending[i]);
          kept, keptHashes := kept + [pending[i]], keptHashes + {pending[i].txHash};
        }
      }
      assert pending[..|pending|] == pending;
      KeptWithin(view, pending);
      WithinMembers(kept, pending);
      WithinCounts(kept, pending, "");
      forall sender ensures FromSender(kept, sender) <= FromSender(pending, sender) {
        WithinCounts(kept, pending, sender);
      }
      pending, hashes := kept, keptHashes;
    }

    /** Empties the pool in order. */
    method DrainOrdered() returns (txs: seq<Transaction>)
      requires Valid()
      modifies this
      ensures Valid() && pending == [] && Arranges(txs, old(pending))
    {
      txs := SortTransactions(pending);
      pending, hashes := [], {};
    }

    /** Takes transactions in order while they fit; the rest stays pending. */
    method DrainWithLimit(limit: nat) returns (selected: seq<Transaction>)
      requires Valid()
      modifies this
      ensures Valid()
      ensures exists sorted :: Arranges(sorted, old(pending)) && (selected, pending) == Select(sorted, limit)
      ensures multiset(selected) + multiset(pending) == multiset(old(pending))
      ensures Sorted(selected) && Sorted(pending) && BlockUnits(selected) <= limit
    {
      ghost var before := pending;
      var txs := DrainOrdered();
      DistinctArranged(before, txs);
      var deferred: seq<Transaction>, used, deferredHashes: set<string> := [], 0, {};
      selected := [];
      assert txs[..0] == [];
      for i := 0 to |txs|
        invariant (selected, deferred) == Select(txs[..i], limit) && used == BlockUnits(selected)
                  && deferredHashes == HashesOf(deferred)
      {
        assert txs[..i + 1][..i] == txs[..i];
        var next := SaturatingAdd64(used, TransactionUnits(txs[i]));
        if next <= limit {
          assert (selected + [txs[i]])[..|selected|] == selected;
          used, selected := next, selected + [txs[i]];
        } else {
          HashesExtend(deferred, txs[i]);
          deferred, deferredHashes := deferred + [txs[i]], deferredHashes + {txs[i].txHash};
        }
      }
      assert txs[..|txs|] == txs;
      SelectFacts(txs, limit);
      WithinMembers(selected, txs);
      WithinMembers(deferred, txs);
      WithinCounts(deferred, txs, "");
      CountsArranged(txs, before, "");
      forall sender ensures FromSender(deferred, sender) <= FromSender(before, sender) {
        WithinCounts(deferred, txs, sender);
        CountsArranged(txs, before, sender);
      }
      hashes, pending := deferredHashes, deferred;
    }
  }

  lemma HashesExtend(txs: seq<Transaction>, tx: Transaction)
    ensures HashesOf(txs + [tx]) == HashesOf(txs) + {tx.txHash}
  {
    var longer := txs + [tx];
    forall h | h in HashesOf(txs) ensures h in HashesOf(longer) {
      var i :| 0 <= i < |txs| && txs[i].txHash == h;
      assert longer[i] == txs[i];
    }
    assert longer[|txs|] == tx;
  }

  /** Two pools with the same pending set drain the same block, whatever order the transactions arrived in. */
  lemma DrainIgnoresArrival(a: seq<Transaction>, b: seq<Transaction>, sortedA: seq<Transaction>,
                            sortedB: seq<Transaction>, limit: nat)
    requires multiset(a) == multiset(b) && DistinctHashes(a) && Arranges(sortedA, a) && Arranges(sortedB, b)
    ensures Select(sortedA, limit) == Select(sortedB, limit)
  {
    DistinctArranged(a, sortedA);
    DistinctArranged(a, sortedB);
    SortedUnique(sortedA, sortedB);
  }
}
