/** Messages between chains: the outbox of the source and the redemptions on the destination. */
module Crossing {
  import opened Common
  import opened Ledger
  import Merkle
  import opened Executor
  import opened Steps

  // ---------------------------------------------------------------------- outbox

  /** The recorded ids are those of the messages, and no contract has used one twice. */
  ghost predicate OutboxSound(s: Store) {
    && (forall id :: id in s.outboundIds <==> exists i :: 0 <= i < |s.outbox| && s.outbox[i].id == id)
    && (forall i, j | 0 <= i < j < |s.outbox| :: s.outbox[i].sourceContract != s.outbox[j].sourceContract
          || s.outbox[i].id != s.outbox[j].id)
  }

  ghost predicate UniqueIds(outbox: seq<Message>) {
    forall i, j | 0 <= i < j < |outbox| :: outbox[i].id != outbox[j].id
  }

  lemma AppendSound(cfg: Config, s: Store, message: Message, guarded: bool)
    requires OutboxSound(s) && ApplyStep(cfg, s, Append(message, guarded)).Ok?
    ensures OutboxSound(ApplyStep(cfg, s, Append(message, guarded)).value)
  {
    var s' := ApplyStep(cfg, s, Append(message, guarded)).value;
    var n := |s.outbox|;
    forall id ensures id in s'.outboundIds <==> exists i :: 0 <= i < |s'.outbox| && s'.outbox[i].id == id {
      assert s'.outbox[n].id == message.id;
      if id in s.outboundIds {
        var i :| 0 <= i < n && s.outbox[i].id == id;
        assert s'.outbox[i].id == id;
      }
    }
  }

  /** The outbox stays sound and only grows. */
  lemma {:induction false} LogOutbox(cfg: Config, s: Store, log: seq<Step>)
    requires OutboxSound(s) && RunSteps(cfg, s, log).Ok?
    ensures OutboxSound(RunSteps(cfg, s, log).value) && s.outbox <= RunSteps(cfg, s, log).value.outbox
    decreases |log|
  {
    if log != [] {
      if log[0].Append? { AppendSound(cfg, s, log[0].message, log[0].guarded); } else { StepOutbox(cfg, s, log[0]); }
      LogOutbox(cfg, ApplyStep(cfg, s, log[0]).value, log[1..]);
    }
  }

  /** An append keeps ids unique exactly when its id was not queued before. */
  lemma AppendUnique(cfg: Config, s: Store, message: Message, guarded: bool)
    requires OutboxSound(s) && UniqueIds(s.outbox) && ApplyStep(cfg, s, Append(message, guarded)).Ok?
    ensures UniqueIds(ApplyStep(cfg, s, Append(message, guarded)).value.outbox) <==> message.id !in s.outboundIds
  {
    var outbox := ApplyStep(cfg, s, Append(message, guarded)).value.outbox;
    if message.id in s.outboundIds {
      var i :| 0 <= i < |s.outbox| && s.outbox[i].id == message.id;
      assert outbox[i].id == outbox[|s.outbox|].id;
    }
  }

  /** None of the messages queued since is exposed. */
  ghost predicate NoneExposed(cfg: Config, before: seq<Message>, after: seq<Message>) {
    forall i | |before| <= i < |after| :: !Exposed(cfg, after[i])
  }

  /** Unless a bridge queues an asset on an aspect ledger, every message is queued under an id of its own. */
  lemma {:induction false} LogUnique(cfg: Config, s: Store, log: seq<Step>)
    requires Guarded(cfg, log) && OutboxSound(s) && UniqueIds(s.outbox) && RunSteps(cfg, s, log).Ok?
    requires NoneExposed(cfg, s.outbox, RunSteps(cfg, s, log).value.outbox)
    ensures UniqueIds(RunSteps(cfg, s, log).value.outbox)
    decreases |log|
  {
    if log != [] {
      var s1, s' := ApplyStep(cfg, s, log[0]).value, RunSteps(cfg, s, log).value;
      if log[0].Append? {
        AppendSound(cfg, s, log[0].message, log[0].guarded);
        LogOutbox(cfg, s1, log[1..]);
        assert s'.outbox[|s.outbox|] == s1.outbox[|s.outbox|] == log[0].message;
        AppendUnique(cfg, s, log[0].message, log[0].guarded);
      } else {
        StepOutbox(cfg, s, log[0]);
      }
      LogUnique(cfg, s1, log[1..]);
    }
  }

  // ----------------------------------------------------------------- redemptions

  datatype Redemption = Redemption(id: string, recipient: Id, asset: Id, amount: nat)

  /** What a contract has redeemed, in order. */
  function Redemptions(events: seq<Event>, c: Id): seq<Redemption> {
    if events == [] then []
    else Redemptions(events[..|events| - 1], c) + RedeemedBy(events[|events| - 1], c)
  }

  function RedeemedBy(e: Event, c: Id): seq<Redemption> {
    match e.payload
    case BridgeMessageRedeemed(id, recipient, asset, amount) =>
      if e.contract == c then [Redemption(id, recipient, asset, amount)] else []
    case _ => []
  }

  lemma RedemptionsEmit(s: Store, contract: Id, txHash: string, payload: Payload, c: Id)
    ensures Redemptions(Emit(s, contract, txHash, payload).events, c)
         == Redemptions(s.events, c) + RedeemedBy(Event(contract, txHash, |s.events|, payload), c)
  {
    var events := Emit(s, contract, txHash, payload).events;
    assert events[..|events| - 1] == s.events;
  }

  /** The message carries exactly this redemption to the contract. */
  predicate Carries(m: Message, chain: Id, c: Id, r: Redemption) {
    m.destinationChain == chain && m.destinationContract == c && m.id == r.id && m.recipient == r.recipient
      && m.asset == r.asset && m.amount == r.amount
  }

  ghost predicate Backed(outbox: seq<Message>, chain: Id, c: Id, r: Redemption) {
    exists i | 0 <= i < |outbox| :: Carries(outbox[i], chain, c, r)
  }

  /** Distinct members of the trusted set, at least a quorum of them, signed the proof's outbox root. */
  predicate QuorumSigned(proof: FinalityProof, trusted: ValidatorSet) {
    && AllDistinct(proof.signers) && |proof.signers| >= trusted.quorum
    && forall i | 0 <= i < |proof.signers| :: proof.signers[i] in trusted.validators
  }

  /** Trusted quorums sign only roots the source's outbox really had. */
  ghost predicate SignedHonestly(cfg: Config, source: Id, outbox: seq<Message>) {
    source in cfg.trusted ==>
      forall text | text in cfg.proofs && QuorumSigned(cfg.proofs[text], cfg.trusted[source]) ::
        exists n :: 0 <= n <= |outbox| && cfg.proofs[text].outboxRoot == Merkle.Root(outbox[..n])
  }

  /** A certified redemption is backed by a message of the source. */
  lemma CertifiedIsBacked(cfg: Config, text: string, source: Id, c: Id, r: Redemption, outbox: seq<Message>)
    requires BridgeCertified(cfg, text, source, c, r.id, r.recipient, r.asset, r.amount)
             && SignedHonestly(cfg, source, outbox)
    ensures Backed(outbox, cfg.chainId, c, r)
  {
    var proof := cfg.proofs[text];
    assert QuorumSigned(proof, cfg.trusted[source]);
    var n :| 0 <= n <= |outbox| && proof.outboxRoot == Merkle.Root(outbox[..n]);
    Merkle.InclusionSound(outbox[..n], proof.proof, proof.message);
    var i :| 0 <= i < n && outbox[..n][i] == proof.message;
    assert Carries(outbox[i], cfg.chainId, c, r);
  }

  ghost predicate DistinctIds(rs: seq<Redemption>) {
    forall i, j | 0 <= i < j < |rs| :: rs[i].id != rs[j].id
  }

  /** Every redemption is spent, under an id of its own, and backed by the source. */
  ghost predicate Redeemable(s: Store, chain: Id, c: Id, outbox: seq<Message>) {
    var rs := Redemptions(s.events, c);
    && DistinctIds(rs)
    && forall i | 0 <= i < |rs| :: Get(s.storage, BridgeMessageConsumed(c, rs[i].id)) != 0
         && Backed(outbox, chain, c, rs[i])
  }

  /** Spent marks and redemptions are as they were. */
  ghost predicate SameSpent(s: Store, s': Store, c: Id) {
    && (forall id :: Get(s'.storage, BridgeMessageConsumed(c, id)) == Get(s.storage, BridgeMessageConsumed(c, id)))
    && Redemptions(s'.events, c) == Redemptions(s.events, c)
  }

  lemma MoveSpends(cfg: Config, s: Store, token: Id, from: Id, to: Id, asset: Id, amount: nat, c: Id)
    requires ApplyMove(cfg, s, token, from, to, asset, amount).Ok?
    ensures SameSpent(s, ApplyMove(cfg, s, token, from, to, asset, amount).value, c)
  {
    hide TransferNative;
    TransferWrites(s, token, from, to, asset, amount);
  }

  lemma AccruedSpends(s: Store, d: Id, staker: Id, asset: Id, height: nat, due: nat, c: Id)
    ensures SameSpent(s, Accrued(s, d, staker, asset, height, due), c)
  {
  }

  lemma AccrueSpends(cfg: Config, s: Store, d: Id, staker: Id, after: Store, c: Id)
    requires ApplyAccrue(cfg, s, d, staker) == Ok(after)
    ensures SameSpent(s, after, c)
  {
    hide SameSpent, Accrued, RewardsDue, AccrueRewards;
    var due := AccrueWrites(cfg, s, d, staker);
    AccruedSpends(s, d, staker, cfg.contracts[d].stakingAsset, cfg.height, due, c);
  }

  lemma ClaimSpends(cfg: Config, s: Store, d: Id, staker: Id, t: Id, txHash: string, c: Id)
    requires ApplyClaim(cfg, s, d, staker, t, txHash).Ok?
    ensures SameSpent(s, ApplyClaim(cfg, s, d, staker, t, txHash).value, c)
  {
    hide MintNative, NativeLedgers, Redemptions;
    var a := cfg.contracts[d].stakingAsset;
    var rewardKey := StakingRewardBalance(d, staker, a);
    var claimed := Get(s.storage, rewardKey);
    var s1 := Put(s, rewardKey, 0);
    var s2 := s1;
    if claimed != 0 {
      MintWrites(s1, t, staker, a, claimed);
      s2 := MintNative(s1, t, staker, a, claimed).value;
    }
    RedemptionsEmit(s2, d, txHash, StakingRewardsClaimed(staker, a, claimed), c);
  }

  /** Steps other than redemptions change neither the spent marks nor the redemptions. */
  lemma ConsumedKept(cfg: Config, s: Store, step: Step, c: Id)
    requires ApplyStep(cfg, s, step).Ok? && !step.Redeem?
    ensures SameSpent(s, ApplyStep(cfg, s, step).value, c)
  {
    hide ApplyMove, ApplyAccrue, ApplyClaim, Quote, Redemptions;
    match step
    case Move(t, from, to, a, amount) => MoveSpends(cfg, s, t, from, to, a, amount, c);
    case Accrue(d, staker) => AccrueSpends(cfg, s, d, staker, ApplyAccrue(cfg, s, d, staker).value, c);
    case Claim(d, staker, t, txHash) => ClaimSpends(cfg, s, d, staker, t, txHash, c);
    case Note(d, txHash, name) => RedemptionsEmit(s, d, txHash, Notice(name), c);
    case _ =>
  }

  /** What a redemption step writes. */
  lemma RedeemWrites(cfg: Config, s: Store, d: Id, t: Id, id: string, recipient: Id, a: Id, amount: nat,
                     certificate: string, txHash: string, c: Id)
    requires ApplyRedeem(cfg, s, d, t, id, recipient, a, amount, certificate, txHash).Ok?
    ensures var s' := ApplyRedeem(cfg, s, d, t, id, recipient, a, amount, certificate, txHash).value;
            && Redemptions(s'.events, c)
               == Redemptions(s.events, c) + (if d == c then [Redemption(id, recipient, a, amount)] else [])
            && Get(s.storage, BridgeMessageConsumed(d, id)) == 0 && Get(s'.storage, BridgeMessageConsumed(d, id)) == 1
            && (forall x, i | x != d || i != id ::
                  Get(s'.storage, BridgeMessageConsumed(x, i)) == Get(s.storage, BridgeMessageConsumed(x, i)))
            && IsBridge(cfg, d) && BridgeCertified(cfg, certificate, cfg.contracts[d].sourceChain, d, id, recipient,
                                                   a, amount)
  {
    hide MintNative, BridgeCertified, NativeLedgers, Redemptions;
    MintWrites(s, t, recipient, a, amount);
    var s1 := MintNative(s, t, recipient, a, amount).value;
    RedemptionsEmit(Put(s1, BridgeMessageConsumed(d, id), 1), d, txHash,
                    BridgeMessageRedeemed(id, recipient, a, amount), c);
  }

  lemma RedeemOnce(cfg: Config, s: Store, d: Id, t: Id, id: string, recipient: Id, a: Id, amount: nat,
                   certificate: string, txHash: string,
                   c: Id, outbox: seq<Message>)
    requires IsBridge(cfg, c) && SignedHonestly(cfg, cfg.contracts[c].sourceChain, outbox)
             && Redeemable(s, cfg.chainId, c, outbox)
    requires ApplyRedeem(cfg, s, d, t, id, recipient, a, amount, certificate, txHash).Ok?
    ensures Redeemable(ApplyRedeem(cfg, s, d, t, id, recipient, a, amount, certificate, txHash).value, cfg.chainId, c,
                       outbox)
  {
    hide ApplyRedeem, BridgeCertified, SignedHonestly, Backed, Redemptions;
    RedeemWrites(cfg, s, d, t, id, recipient, a, amount, certificate, txHash, c);
    var s' := ApplyRedeem(cfg, s, d, t, id, recipient, a, amount, certificate, txHash).value;
    var rs, rs' := Redemptions(s.events, c), Redemptions(s'.events, c);
    if d == c {
      var r := Redemption(id, recipient, a, amount);
      CertifiedIsBacked(cfg, certificate, cfg.contracts[c].sourceChain, c, r, outbox);
      assert rs' == rs + [r];
    } else {
      assert rs' == rs;
    }
  }

  lemma {:induction false} LogRedeemable(cfg: Config, s: Store, log: seq<Step>, c: Id, outbox: seq<Message>)
    requires IsBridge(cfg, c) && SignedHonestly(cfg, cfg.contracts[c].sourceChain, outbox)
             && Redeemable(s, cfg.chainId, c, outbox)
    requires RunSteps(cfg, s, log).Ok?
    ensures Redeemable(RunSteps(cfg, s, log).value, cfg.chainId, c, outbox)
    decreases |log|
  {
    hide SignedHonestly, Redeemable;
    if log != [] {
      var s1 := ApplyStep(cfg, s, log[0]).value;
      StepRedeemable(cfg, s, log[0], s1, c, outbox);
      LogRedeemable(cfg, s1, log[1..], c, outbox);
    }
  }

  lemma StepRedeemable(cfg: Config, s: Store, step: Step, s1: Store, c: Id, outbox: seq<Message>)
    requires IsBridge(cfg, c) && SignedHonestly(cfg, cfg.contracts[c].sourceChain, outbox)
             && Redeemable(s, cfg.chainId, c, outbox)
    requires ApplyStep(cfg, s, step) == Ok(s1)
    ensures Redeemable(s1, cfg.chainId, c, outbox)
  {
    hide SignedHonestly, Redeemable, SameSpent, ApplyRedeem;
    if step.Redeem? {
      RedeemOnce(cfg, s, step.contract, step.token, step.id, step.recipient, step.asset, step.amount,
                 step.certificate, step.txHash, c, outbox);
    } else {
      ConsumedKept(cfg, s, step, c);
      SameRedeemable(s, s1, cfg.chainId, c, outbox);
    }
  }

  lemma SameRedeemable(s: Store, s': Store, chain: Id, c: Id, outbox: seq<Message>)
    requires Redeemable(s, chain, c, outbox) && SameSpent(s, s', c)
    ensures Redeemable(s', chain, c, outbox)
  {
    hide Redemptions, Backed;
  }

  // ---------------------------------------------------------------- conservation

  function RedeemedTotal(rs: seq<Redemption>, asset: Id): nat {
    if rs == [] then 0 else RedeemedTotal(rs[..|rs| - 1],
                                          asset) + (if rs[|rs| - 1].asset == asset then rs[|rs| - 1].amount else 0)
  }

  /** What the source has queued of an asset for a contract. */
  function QueuedTotal(outbox: seq<Message>, chain: Id, c: Id, asset: Id): nat {
    if outbox == [] then 0
    else
      var m := outbox[|outbox| - 1];
      QueuedTotal(outbox[..|outbox| - 1], chain, c, asset)
      + (if m.destinationChain == chain && m.destinationContract == c && m.asset == asset then m.amount else 0)
  }

  function Without(rs: seq<Redemption>, k: nat): seq<Redemption>
    requires k < |rs|
  {
    rs[..k] + rs[k + 1..]
  }

  lemma {:induction false} TotalWithout(rs: seq<Redemption>, k: nat, asset: Id)
    requires k < |rs|
    ensures RedeemedTotal(rs, asset)
              == RedeemedTotal(Without(rs, k), asset) + (if rs[k].asset == asset then rs[k].amount else 0)
    decreases |rs|
  {
    var last := |rs| - 1;
    if k == last {
      assert Without(rs, k) == rs[..last];
    } else {
      TotalWithout(rs[..last], k, asset);
      assert Without(rs, k)[..last - 1] == Without(rs[..last], k);
      assert Without(rs, k)[last - 1] == rs[last];
    }
  }

  /** Each redemption has a message of its own. */
  lemma Correspondence(rs: seq<Redemption>, outbox: seq<Message>, chain: Id, c: Id) returns (at: seq<nat>)
    requires DistinctIds(rs) && forall i | 0 <= i < |rs| :: Backed(outbox, chain, c, rs[i])
    ensures |at| == |rs| && forall i | 0 <= i < |rs| :: at[i] < |outbox| && Carries(outbox[at[i]], chain, c, rs[i])
    ensures forall i, j | 0 <= i < j < |rs| :: at[i] != at[j]
  {
    at := [];
    for k := 0 to |rs|
      invariant |at| == k && forall i | 0 <= i < k :: at[i] < |outbox| && Carries(outbox[at[i]], chain, c, rs[i])
    {
      assert Backed(outbox, chain, c, rs[k]);
      var n :| 0 <= n < |outbox| && Carries(outbox[n], chain, c, rs[k]);
      at := at + [n];
    }
  }

  /** Redemptions under distinct ids, each backed, never exceed what was queued. */
  lemma {:induction false} Conserved(rs: seq<Redemption>, outbox: seq<Message>, chain: Id, c: Id, asset: Id)
    requires DistinctIds(rs) && forall i | 0 <= i < |rs| :: Backed(outbox, chain, c, rs[i])
    ensures RedeemedTotal(rs, asset) <= QueuedTotal(outbox, chain, c, asset)
    decreases |outbox|
  {
    hide Backed;
    if outbox == [] {
      if rs != [] { BackedSome(outbox, chain, c, rs[0]); }
    } else {
      var last, earlier := outbox[|outbox| - 1], outbox[..|outbox| - 1];
      if k :| 0 <= k < |rs| && Carries(last, chain, c, rs[k]) {
        var others := Without(rs, k);
        forall i | 0 <= i < |others| ensures Backed(earlier, chain, c, others[i]) {
          var j := if i < k then i else i + 1;
          assert others[i] == rs[j] && rs[j].id != rs[k].id && Backed(outbox, chain, c, rs[j]);
          NotLast(outbox, chain, c, rs[j]);
        }
        assert DistinctIds(others);
        TotalWithout(rs, k, asset);
        Conserved(others, earlier, chain, c, asset);
      } else {
        forall i | 0 <= i < |rs| ensures Backed(earlier, chain, c, rs[i]) {
          assert Backed(outbox, chain, c, rs[i]);
          NotLast(outbox, chain, c, rs[i]);
        }
        Conserved(rs, earlier, chain, c, asset);
      }
    }
  }

  lemma BackedSome(outbox: seq<Message>, chain: Id, c: Id, r: Redemption)
    requires Backed(outbox, chain, c, r)
    ensures outbox != []
  {
  }

  /** A redemption the last message does not carry is backed by an earlier one. */
  lemma NotLast(outbox: seq<Message>, chain: Id, c: Id, r: Redemption)
    requires outbox != [] && Backed(outbox, chain, c, r) && !Carries(outbox[|outbox| - 1], chain, c, r)
    ensures Backed(outbox[..|outbox| - 1], chain, c, r)
  {
    var i :| 0 <= i < |outbox| && Carries(outbox[i], chain, c, r);
    assert outbox[..|outbox| - 1][i] == outbox[i];
  }
}
