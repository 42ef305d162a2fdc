/** Votes, certificates, slashing and the cluster of replicas. */
module Consensus {
  import opened Common
  import opened Order

  type Id = string

  datatype Vote = Vote(validator: Id, height: nat, blockHash: string)

  datatype Certificate = Certificate(height: nat, blockHash: string, signers: seq<Id>)

  datatype Evidence = Evidence(validator: Id, height: nat, first: string, second: string)

  datatype SlashingRecord = SlashingRecord(validator: Id, height: nat, evidence: Evidence)

  datatype ConsensusError =
    | UnknownProposer | UnknownValidator(id: Id) | SlashedValidator(id: Id) | DuplicateValidator(id: Id)
    | EmptyValidatorSet | ValidatorSetWouldBeEmpty
    | UpdateAlreadyApplied(update: string) | QuorumNotReached(accepted: nat, required: nat) | HeightMismatch
    | BlockHashMismatch
    | InvalidBlock(validator: Id) | Equivocation(evidence: Evidence)

  /** More than two thirds. */
  function QuorumFor(n: nat): nat {
    if n == 0 then 0 else n * 2 / 3 + 1
  }

  function Members(ids: seq<Id>): set<Id> {
    set i | 0 <= i < |ids| :: ids[i]
  }

  // ---------------------------------------------------------------- equivocation

  predicate Conflict(a: Vote, b: Vote) {
    a.validator == b.validator && a.height == b.height && a.blockHash != b.blockHash
  }

  /** Some validator voted for two blocks at one height. */
  ghost predicate DoubleVoted(votes: seq<Vote>) {
    exists i, j :: 0 <= i < j < |votes| && Conflict(votes[i], votes[j])
  }

  /** The evidence names two conflicting votes, hashes in order. */
  ghost predicate Proves(votes: seq<Vote>, e: Evidence) {
    && e.first != e.second && Leq(e.first, e.second)
    && Vote(e.validator, e.height, e.first) in votes && Vote(e.validator, e.height, e.second) in votes
  }

  /** The vote at `n` is the first that conflicts with an earlier one. */
  ghost predicate FirstDouble(votes: seq<Vote>, n: nat) {
    n < |votes| && !DoubleVoted(votes[..n]) && exists i :: 0 <= i < n && Conflict(votes[i], votes[n])
  }

  lemma PairProves(votes: seq<Vote>, i: nat, n: nat)
    requires i < n < |votes| && Conflict(votes[i], votes[n])
    ensures var a, b := votes[i].blockHash, votes[n].blockHash;
            Proves(votes, if Leq(a, b) then Evidence(votes[n].validator, votes[n].height, a, b)
                          else Evidence(votes[n].validator, votes[n].height, b, a))
  {
    LeqTotal(votes[i].blockHash, votes[n].blockHash);
    var vote := votes[n];
    assert votes[i] == Vote(vote.validator, vote.height, votes[i].blockHash);
    assert votes[n] == Vote(vote.validator, vote.height, vote.blockHash);
  }

  /** Evidence is returned exactly when a validator really voted twice, and it is true of the first who did. */
  method DetectEquivocation(votes: seq<Vote>) returns (r: Option<Evidence>)
    ensures r.Some? <==> DoubleVoted(votes)
    ensures r.Some? ==> Proves(votes, r.value)
    ensures r.Some? ==> exists n: nat :: FirstDouble(votes, n) && votes[n].validator == r.value.validator
  {
    hide Leq, Proves;
    var seen: map<(Id, nat), string> := map[];
    for n := 0 to |votes|
      invariant forall k | k in seen :: Vote(k.0, k.1, seen[k]) in votes[..n]
      invariant forall i | 0 <= i < n ::
                  var key := (votes[i].validator, votes[i].height); key in seen && seen[key] == votes[i].blockHash
      invariant !DoubleVoted(votes[..n])
    {
      var vote := votes[n];
      var key := (vote.validator, vote.height);
      if key in seen {
        var previous := seen[key];
        if previous != vote.blockHash {
          var i :| 0 <= i < n && votes[i] == Vote(vote.validator, vote.height, previous);
          assert Conflict(votes[i], votes[n]) && FirstDouble(votes, n);
          var pair := if Leq(previous, vote.blockHash) then (previous, vote.blockHash) else (vote.blockHash, previous);
          PairProves(votes, i, n);
          return Some(Evidence(vote.validator, vote.height, pair.0, pair.1));
        }
      } else {
        seen := seen[key := vote.blockHash];
      }
      assert votes[n] in votes[..n + 1];
    }
    assert votes[..|votes|] == votes;
    r := None;
  }

  // ---------------------------------------------------------------- certificates

  ghost predicate VotedFor(votes: seq<Vote>, height: nat, blockHash: string, id: Id) {
    Vote(id, height, blockHash) in votes
  }

  function Supporters(votes: seq<Vote>, height: nat, blockHash: string): set<Id> {
    set i | 0 <= i < |votes| && votes[i].height == height && votes[i].blockHash == blockHash :: votes[i].validator
  }

  predicate Increasing(ids: seq<Id>) {
    forall i, j | 0 <= i < j < |ids| :: ids[i] != ids[j] && Leq(ids[i], ids[j])
  }

  /** Puts an identifier into an increasing list. */
  method Insert(ids: seq<Id>, id: Id) returns (r: seq<Id>)
    requires Increasing(ids) && id !in ids
    ensures Increasing(r) && Members(r) == Members(ids) + {id}
  {
    var k := |ids|;
    while k > 0 && !Leq(ids[k - 1], id)
      invariant 0 <= k <= |ids| && forall i | k <= i < |ids| :: Leq(id, ids[i])
    {
      LeqTotal(ids[k - 1], id);
      k := k - 1;
    }
    r := ids[..k] + [id] + ids[k..];
    forall i | 0 <= i < k ensures Leq(ids[i], id) {
      if i < k - 1 { LeqTransitive(ids[i], ids[k - 1], id); }
    }
    Inserted(ids, id, k);
  }

  lemma Inserted(ids: seq<Id>, id: Id, k: nat)
    requires Increasing(ids) && id !in ids && k <= |ids|
    requires (forall i | 0 <= i < k :: Leq(ids[i], id)) && forall i | k <= i < |ids| :: Leq(id, ids[i])
    ensures Increasing(ids[..k] + [id] + ids[k..]) && Members(ids[..k] + [id] + ids[k..]) == Members(ids) + {id}
  {
    hide Leq;
    var r := ids[..k] + [id] + ids[k..];
    assert r[k] == id;
    forall x | x in Members(ids) ensures x in Members(r) {
      var i :| 0 <= i < |ids| && ids[i] == x;
      assert r[if i < k then i else i + 1] == x;
    }
  }

  method SortedMembers(s: set<Id>) returns (r: seq<Id>)
    ensures Increasing(r) && Members(r) == s
  {
    r := [];
    var rest := s;
    while rest != {}
      invariant rest <= s && Increasing(r) && Members(r) == s - rest
      decreases |rest|
    {
      var id :| id in rest;
      assert forall x | x in r :: x in Members(r);
      r := Insert(r, id);
      rest := rest - {id};
    }
  }

  /**
    A certificate is issued exactly when no one equivocated and a quorum voted for the block; its signers are those
    who did.
  */
  method CertificateFromVotes(height: nat, blockHash: string, votes: seq<Vote>, quorum: nat)
    returns (r: Result<Certificate, ConsensusError>)
    ensures r.Ok? <==> !DoubleVoted(votes) && |Supporters(votes, height, blockHash)| >= quorum
    ensures r.Ok? ==> r.value.height == height && r.value.blockHash == blockHash && Increasing(r.value.signers)
                      && Members(r.value.signers) == Supporters(votes, height, blockHash)
    ensures DoubleVoted(votes) ==> r.Err? && r.error.Equivocation? && Proves(votes, r.error.evidence)
  {
    var evidence := DetectEquivocation(votes);
    if evidence.Some? { return Err(Equivocation(evidence.value)); }
    var signers: set<Id> := {};
    for n := 0 to |votes|
      invariant signers == Supporters(votes[..n], height, blockHash)
    {
      SupportersExtend(votes[..n], votes[n], height, blockHash);
      assert votes[..n + 1] == votes[..n] + [votes[n]];
      if votes[n].height == height && votes[n].blockHash == blockHash { signers := signers + {votes[n].validator}; }
    }
    assert votes[..|votes|] == votes;
    if |signers| < quorum { return Err(QuorumNotReached(|signers|, quorum)); }
    var sorted := SortedMembers(signers);
    r := Ok(Certificate(height, blockHash, sorted));
  }

  lemma SupportersExtend(votes: seq<Vote>, vote: Vote, height: nat, blockHash: string)
    ensures Supporters(votes + [vote], height, blockHash)
         == Supporters(votes, height, blockHash)
           + (if vote.height == height && vote.blockHash == blockHash then {vote.validator} else {})
  {
    var longer := votes + [vote];
    forall id | id in Supporters(votes, height, blockHash) ensures id in Supporters(longer, height, blockHash) {
      var i :| 0 <= i < |votes| && votes[i].height == height && votes[i].blockHash == blockHash
        && votes[i].validator == id;
      assert longer[i] == votes[i];
    }
    assert longer[|votes|] == vote;
  }

  /** A certificate for this block, signed by a quorum of the active set and by no one else. */
  predicate Accepted(c: Certificate, height: nat, blockHash: string, active: set<Id>, quorum: nat) {
    && active != {} && quorum != 0 && c.height == height && c.blockHash == blockHash
    && Members(c.signers) <= active && |Members(c.signers)| >= quorum
  }

  method VerifyFinalityCertificate(c: Certificate, height: nat, blockHash: string, active: set<Id>, quorum: nat)
    returns (r: Result<(), ConsensusError>)
    ensures r.Ok? <==> Accepted(c, height, blockHash, active, quorum)
  {
    if active == {} || quorum == 0 { return Err(EmptyValidatorSet); }
    if c.height != height { return Err(HeightMismatch); }
    if c.blockHash != blockHash { return Err(BlockHashMismatch); }
    var unique: set<Id> := {};
    for i := 0 to |c.signers|
      invariant unique == Members(c.signers[..i]) && unique <= active
    {
      assert c.signers[..i + 1] == c.signers[..i] + [c.signers[i]];
      MembersExtend(c.signers[..i], c.signers[i]);
      if c.signers[i] !in active {
        assert c.signers[i] in Members(c.signers);
        return Err(UnknownValidator(c.signers[i]));
      }
      unique := unique + {c.signers[i]};
    }
    assert c.signers[..|c.signers|] == c.signers;
    if |unique| < quorum { return Err(QuorumNotReached(|unique|, quorum)); }
    r := Ok(());
  }

  lemma MembersExtend(ids: seq<Id>, id: Id)
    ensures Members(ids + [id]) == Members(ids) + {id}
  {
    var longer := ids + [id];
    forall x | x in Members(ids) ensures x in Members(longer) {
      var i :| 0 <= i < |ids| && ids[i] == x;
      assert longer[i] == x;
    }
    assert longer[|ids|] == id;
  }

  // ---------------------------------------------------------------- quorum safety

  /** Two quorums of one set share more than a third of it. */
  lemma QuorumsIntersect(a: set<Id>, b: set<Id>, active: set<Id>)
    requires a <= active && b <= active && active != {} && |a| >= QuorumFor(|active|) && |b| >= QuorumFor(|active|)
    ensures 3 * |a * b| > |active|
  {
    SubsetCardinality(a + b, active);
    assert |a + b| == |a| + |b| - |a * b|;
  }

  /** Certificates accepted against one active set share more than a third of it. */
  lemma CertificatesShareSigners(c: Certificate, d: Certificate, active: set<Id>)
    requires Accepted(c, c.height, c.blockHash, active, QuorumFor(|active|))
             && Accepted(d, d.height, d.blockHash, active, QuorumFor(|active|))
    ensures 3 * |Members(c.signers) * Members(d.signers)| > |active|
  {
    QuorumsIntersect(Members(c.signers), Members(d.signers), active);
  }

  /** Each signer's vote for the certified block is among the votes. */
  ghost predicate BackedBy(c: Certificate, votes: seq<Vote>) {
    forall id | id in Members(c.signers) :: VotedFor(votes, c.height, c.blockHash, id)
  }

  /**
    Accountability: if two different blocks are certified at one height, then any list holding the
    backing votes shows equivocation, and the validators to blame are more than a third of the set.
  */
  lemma ForkIsAccountable(c: Certificate, d: Certificate, active: set<Id>, votes: seq<Vote>)
    requires Accepted(c, c.height, c.blockHash, active, QuorumFor(|active|))
             && Accepted(d, d.height, d.blockHash, active, QuorumFor(|active|))
    requires c.height == d.height && c.blockHash != d.blockHash && BackedBy(c, votes) && BackedBy(d, votes)
    ensures DoubleVoted(votes)
    ensures 3 * |Members(c.signers) * Members(d.signers)| > |active|
    ensures forall id | id in Members(c.signers) * Members(d.signers) ::
              VotedFor(votes, c.height, c.blockHash, id) && VotedFor(votes, c.height, d.blockHash, id)
  {
    CertificatesShareSigners(c, d, active);
    var both := Members(c.signers) * Members(d.signers);
    assert both != {};
    var id :| id in both;
    var i :| 0 <= i < |votes| && votes[i] == Vote(id, c.height, c.blockHash);
    var j :| 0 <= j < |votes| && votes[j] == Vote(id, d.height, d.blockHash);
    if i < j { assert Conflict(votes[i], votes[j]); } else { assert Conflict(votes[j], votes[i]); }
  }

  /** Without equivocation a height has at most one certified block. */
  lemma AgreementWithoutEquivocation(c: Certificate, d: Certificate, active: set<Id>, votes: seq<Vote>)
    requires Accepted(c, c.height, c.blockHash, active, QuorumFor(|active|))
             && Accepted(d, d.height, d.blockHash, active, QuorumFor(|active|))
    requires c.height == d.height && BackedBy(c, votes) && BackedBy(d, votes) && !DoubleVoted(votes)
    ensures c.blockHash == d.blockHash
  {
    if c.blockHash != d.blockHash { ForkIsAccountable(c, d, active, votes); }
  }

  /** A certificate issued by a whole active set is accepted. */
  lemma UnanimousIsQuorum(active: set<Id>)
    requires active != {}
    ensures |active| >= QuorumFor(|active|) > 0
  {
  }

  // ------------------------------------------------------------------ the cluster

  datatype Header = Header(height: nat, proposer: Id)

  datatype Update<S> = Update(id: string, add: seq<(Id, S)>, remove: seq<Id>)

  predicate AgreeOn<S(==)>(validators: map<Id, S>, slashed: set<Id>, s: S) {
    forall id | id in validators && id !in slashed :: validators[id] == s
  }

  /** The active validators in `done` have applied the block; no one else has moved. */
  ghost predicate Advanced<S, B, E>(apply: (S, B) -> Result<S, E>, block: B, before: map<Id, S>, after: map<Id, S>,
                                    slashed: set<Id>, done: set<Id>) {
    && after.Keys == before.Keys
    && forall id | id in before :: if id in done && id !in slashed then apply(before[id], block) == Ok(after[id])
         else after[id] == before[id]
  }

  /** `done` has been visited and `rest` is still to come. */
  predicate Walk(all: set<Id>, rest: set<Id>, done: set<Id>) {
    rest <= all && done == all - rest
  }

  lemma WalkOn(all: set<Id>, rest: set<Id>, done: set<Id>, slashed: set<Id>, id: Id)
    requires Walk(all, rest, done) && id in rest
    ensures id !in done && id in all && Walk(all, rest - {id}, done + {id})
    ensures (done + {id}) - slashed == (if id in slashed then done - slashed else (done - slashed) + {id})
  {
  }

  lemma NoneAdvanced<S, B, E>(apply: (S, B) -> Result<S, E>, block: B, before: map<Id, S>, slashed: set<Id>,
                              height: nat, blockHash: string)
    ensures Advanced(apply, block, before, before, slashed, {}) && AllFor([], height, blockHash, {} - slashed)
  {
  }

  lemma AdvanceOne<S, B, E>(apply: (S, B) -> Result<S, E>, block: B, before: map<Id, S>, after: map<Id, S>,
                            slashed: set<Id>, done: set<Id>, id: Id)
    requires Advanced(apply, block, before, after, slashed, done) && id in after && id !in done
    ensures after[id] == before[id]
    ensures id in slashed ==> Advanced(apply, block, before, after, slashed, done + {id})
    ensures apply(after[id], block).Ok? && id !in slashed ==>
              Advanced(apply, block, before, after[id := apply(after[id], block).value], slashed, done + {id})
  {
  }

  /** Replicas that agree behave alike: all apply the block or, when one cannot, none has. */
  lemma AgreementKept<S, B, E>(apply: (S, B) -> Result<S, E>, block: B, before: map<Id, S>, after: map<Id, S>,
                               slashed: set<Id>, done: set<Id>,
                            s: S, ok: bool)
    requires Advanced(apply, block, before, after, slashed, done) && AgreeOn(before, slashed, s)
    requires ok ==> done == before.Keys
    requires !ok ==> exists id :: id in before && id !in slashed && id !in done && apply(before[id], block).Err?
    ensures if ok then before.Keys <= slashed
            || (apply(s, block).Ok? && AgreeOn(after, slashed, apply(s, block).value)) else AgreeOn(after, slashed, s)
  {
  }

  /**
    An equivocator who is a member is slashed for it, on true evidence, and no one else is; of one who is
    not a member nothing is recorded.  Either way there is no certificate.
  */
  ghost predicate CaughtOut(votes: seq<Vote>, id: Id, members: set<Id>, before: map<Id, SlashingRecord>,
                            after: map<Id, SlashingRecord>, r: Result<Certificate, ConsensusError>) {
    if id in members then
      && r.Err? && r.error.Equivocation? && Proves(votes, r.error.evidence) && r.error.evidence.validator == id
      && after == (if id in before then before
                   else before[id := SlashingRecord(id, r.error.evidence.height, r.error.evidence)])
    else r == Err(UnknownValidator(id)) && after == before
  }

  /** The cluster, for any replica state `S` and block type `B` and any deterministic way of applying a block. */
  class Cluster<S(==, !new), B(!new), E(!new)> {
    const apply: (S, B) -> Result<S, E>
    const headerOf: B -> Header
    const hashOf: B -> string
    var validators: map<Id, S>
    var slashing: map<Id, SlashingRecord>
    var applied: set<string>

    predicate Valid()
      reads this
    {
      slashing.Keys <= validators.Keys && validators.Keys != {}
    }

    function Active(): set<Id>
      reads this
    {
      validators.Keys - slashing.Keys
    }

    /** All active replicas are in the state `s`. */
    predicate Agree(s: S)
      reads this
    {
      AgreeOn(validators, slashing.Keys, s)
    }

    constructor (apply: (S, B) -> Result<S, E>, headerOf: B -> Header, hashOf: B -> string, validators: map<Id, S>)
      requires validators.Keys != {}
      ensures Valid() && this.validators == validators && slashing == map[] && applied == {}
      ensures this.apply == apply && this.headerOf == headerOf && this.hashOf == hashOf
    {
      this.apply, this.headerOf, this.hashOf := apply, headerOf, hashOf;
      this.validators, slashing, applied := validators, map[], {};
    }

    method ActiveCount() returns (n: nat)
      requires Valid()
      ensures n == |Active()|
    {
      SubsetCardinality(slashing.Keys, validators.Keys);
      CountDifference(validators.Keys, slashing.Keys);
      n := |validators| - |slashing|;
    }

    method Quorum() returns (q: nat)
      requires Valid()
      ensures q == QuorumFor(|Active()|)
    {
      var n := ActiveCount();
      q := QuorumFor(n);
    }

    /** The first record of a validator's equivocation stands. */
    method RecordEquivocation(evidence: Evidence) returns (r: Result<SlashingRecord, ConsensusError>)
      requires Valid()
      modifies this`slashing
      ensures Valid()
      ensures r.Ok? <==> evidence.validator in validators
      ensures r.Err? ==> r.error == UnknownValidator(evidence.validator) && slashing == old(slashing)
      ensures r.Ok? ==> slashing.Keys == old(slashing).Keys + {evidence.validator}
                        && slashing[evidence.validator] == r.value
                        && forall id | id in old(slashing) :: slashing[id] == old(slashing)[id]
      ensures r.Ok? && evidence.validator !in old(slashing) ==>
                r.value == SlashingRecord(evidence.validator, evidence.height, evidence)
    {
      var id := evidence.validator;
      if id !in validators { return Err(UnknownValidator(id)); }
      if id !in slashing { slashing := slashing[id := SlashingRecord(id, evidence.height, evidence)]; }
      r := Ok(slashing[id]);
    }

    /** Certifies the votes of unslashed validators, or slashes an equivocator. */
    method CertificateFromActiveVotes(height: nat, blockHash: string, votes: seq<Vote>)
      returns (r: Result<Certificate, ConsensusError>)
      requires Valid()
      modifies this`slashing
      ensures Valid()
      ensures !DoubleVoted(votes) ==> slashing == old(slashing)
      ensures DoubleVoted(votes) ==>
                exists n: nat :: FirstDouble(votes, n)
                                 && CaughtOut(votes, votes[n].validator, validators.Keys, old(slashing), slashing, r)
      ensures r.Ok? <==> !DoubleVoted(votes)
                         && |Supporters(votes, height, blockHash) - slashing.Keys| >= QuorumFor(|Active()|)
      ensures r.Ok? ==> r.value.height == height && r.value.blockHash == blockHash
                        && Members(r.value.signers) == Supporters(votes, height, blockHash) - slashing.Keys
    {
      hide FirstDouble, DoubleVoted, Proves;
      var evidence := DetectEquivocation(votes);
      if evidence.Some? {
        var recorded := RecordEquivocation(evidence.value);
        if recorded.Err? { return Err(recorded.error); }
        return Err(Equivocation(evidence.value));
      }
      var activeVotes: seq<Vote> := [];
      for n := 0 to |votes|
        invariant slashing == old(slashing)
        invariant Supporters(activeVotes, height, blockHash)
                    == Supporters(votes[..n], height, blockHash) - slashing.Keys
        invariant forall v | v in activeVotes :: v in votes
      {
        SupportersExtend(votes[..n], votes[n], height, blockHash);
        assert votes[..n + 1] == votes[..n] + [votes[n]];
        if votes[n].validator !in slashing {
          SupportersExtend(activeVotes, votes[n], height, blockHash);
          activeVotes := activeVotes + [votes[n]];
        }
      }
      assert votes[..|votes|] == votes;
      NoConflictAmong(activeVotes, votes);
      var quorum := Quorum();
      r := CertificateFromVotes(height, blockHash, activeVotes, quorum);
    }

    /** Every active replica applies the block in turn and votes; the first that cannot stops the rest. */
    method ApplyEverywhere(block: B, height: nat, blockHash: string)
      returns (r: Result<seq<Vote>, ConsensusError>, ghost done: set<Id>)
      requires Valid()
      modifies this`validators
      ensures Valid() && validators.Keys == old(validators).Keys
              && Advanced(apply, block, old(validators), validators, slashing.Keys, done)
      ensures r.Ok? ==> done == validators.Keys && AllFor(r.value, height, blockHash, Active())
      ensures r.Err? ==> exists id :: id in Active() && id !in done && apply(old(validators)[id], block).Err?
    {
      hide Advanced, AllFor;
      ghost var before, slashed := validators, slashing.Keys;
      var votes: seq<Vote> := [];
      var rest := validators.Keys;
      done := {};
      NoneAdvanced(apply, block, before, slashed, height, blockHash);
      while rest != {}
        invariant Walk(before.Keys, rest, done) && validators.Keys == before.Keys
        invariant Advanced(apply, block, before, validators, slashed, done)
        invariant AllFor(votes, height, blockHash, done - slashed)
        decreases rest
      {
        var id :| id in rest;
        WalkOn(before.Keys, rest, done, slashed, id);
        AdvanceOne(apply, block, before, validators, slashed, done, id);
        if id !in slashing {
          var next := apply(validators[id], block);
          if next.Err? { return Err(InvalidBlock(id)), done; }
          validators := validators[id := next.value];
          VotersExtend(votes, height, blockHash, done - slashed, id);
          votes := votes + [Vote(id, height, blockHash)];
        }
        rest, done := rest - {id}, done + {id};
      }
      assert done - slashed == Active();
      r := Ok(votes);
    }

    /**
      On success all active replicas have applied the block and they sign; on an error some may have
      applied it, but replicas that agreed before still agree, and then none of them has moved.
    */
    method FinalizeBlock(block: B) returns (r: Result<Certificate, ConsensusError>)
      requires Valid()
      modifies this`validators, this`slashing
      ensures Valid() && slashing == old(slashing)
      ensures exists done :: Advanced(apply, block, old(validators), validators, slashing.Keys, done)
                && (r.Ok? ==> done == validators.Keys)
      ensures r.Ok? ==> r.value.height == headerOf(block).height && r.value.blockHash == hashOf(block)
                        && Members(r.value.signers) == Active()
      ensures r.Err? ==> headerOf(block).proposer in slashing
                         || exists id :: id in Active() && apply(old(validators)[id], block).Err?
      ensures forall s | old(Agree(s)) ::
                if r.Ok? then Active() == {} || (apply(s, block).Ok? && Agree(apply(s, block).value)) else Agree(s)
    {
      hide Advanced, AllFor, AgreeOn, DoubleVoted;
      var header := headerOf(block);
      if header.proposer in slashing {
        NoneAdvanced(apply, block, validators, slashing.Keys, header.height, hashOf(block));
        return Err(SlashedValidator(header.proposer));
      }
      var votes, done := ApplyEverywhere(block, header.height, hashOf(block));
      forall s | old(Agree(s)) ensures if votes.Ok? then
        Active() == {} || (apply(s, block).Ok? && AgreeOn(validators, slashing.Keys, apply(s, block).value))
                                       else AgreeOn(validators, slashing.Keys, s) {
        AgreementKept(apply, block, old(validators), validators, slashing.Keys, done, s, votes.Ok?);
      }
      if votes.Err? { return Err(votes.error); }
      AllSupport(votes.value, header.height, hashOf(block), Active());
      r := CertificateFromActiveVotes(header.height, hashOf(block), votes.value);
      assert Supporters(votes.value, header.height, hashOf(block)) - slashing.Keys == Active();
      if Active() != {} { UnanimousIsQuorum(Active()); }
    }

    /** The signers are active validators and reach the quorum. */
    method RequireActiveQuorum(signers: seq<Id>) returns (r: Result<(), ConsensusError>)
      requires Valid()
      ensures r.Ok? <==> Members(signers) <= Active() && |Members(signers)| >= QuorumFor(|Active()|)
    {
      var accepted: set<Id> := {};
      for i := 0 to |signers|
        invariant accepted == Members(signers[..i]) && accepted <= Active()
      {
        assert signers[..i + 1] == signers[..i] + [signers[i]];
        MembersExtend(signers[..i], signers[i]);
        assert signers[i] in Members(signers);
        if signers[i] !in validators { return Err(UnknownValidator(signers[i])); }
        if signers[i] in slashing { return Err(SlashedValidator(signers[i])); }
        accepted := accepted + {signers[i]};
      }
      assert signers[..|signers|] == signers;
      var required := Quorum();
      if |accepted| < required { return Err(QuorumNotReached(|accepted|, required)); }
      r := Ok(());
    }

    /** New validators are new and distinct, departing ones are members and distinct, and someone remains. */
    predicate UpdateValid(update: Update<S>)
      reads this
    {
      && (forall i | 0 <= i < |update.add| :: update.add[i].0 !in validators)
      && (forall i, j | 0 <= i < j < |update.add| :: update.add[i].0 != update.add[j].0)
      && (forall i | 0 <= i < |update.remove| :: update.remove[i] in validators)
      && (forall i, j | 0 <= i < j < |update.remove| :: update.remove[i] != update.remove[j])
      && |validators| + |update.add| != |update.remove|
    }

    /** A quorum may change the validator set once per update; departing validators lose their record too. */
    method ApplyUpdate(update: Update<S>, certificate: Certificate) returns (r: Result<(), ConsensusError>)
      requires Valid()
      modifies this
      ensures Valid()
      ensures r.Ok? <==> update.id !in old(applied) && Members(certificate.signers) <= old(Active())
                         && |Members(certificate.signers)| >= QuorumFor(|old(Active())|) && old(UpdateValid(update))
      ensures r.Err? ==> validators == old(validators) && slashing == old(slashing) && applied == old(applied)
      ensures r.Ok? ==> Replaced(old(validators), validators, update.remove, update.add)
                        && slashing == old(slashing) - Members(update.remove) && applied == old(applied) + {update.id}
    {
      hide Replaced, Members, NodesOf, UpdateValid, QuorumFor, DistinctNames, Active;
      if update.id in applied { return Err(UpdateAlreadyApplied(update.id)); }
      var quorum := RequireActiveQuorum(certificate.signers);
      if quorum.Err? { return quorum; }
      var valid := ValidateUpdate(update);
      if valid.Err? { return valid; }
      Replace(update);
      applied := applied + {update.id};
      r := Ok(());
    }

    /** The change of the validator set itself. */
    method Replace(update: Update<S>)
      requires Valid() && UpdateValid(update)
      modifies this`validators, this`slashing
      ensures Valid() && Replaced(old(validators), validators, update.remove, update.add)
      ensures slashing == old(slashing) - Members(update.remove)
    {
      hide Replaced, Members, NodesOf, UpdateValid, DistinctNames;
      RemainSome(update);
      Updated(validators, slashing.Keys, update.remove, update.add);
      ghost var before := validators;
      RemoveAll(update.remove);
      AddAll(update.add);
      assert validators == (before - Members(update.remove)) + NodesOf(update.add);
    }

    method RemoveAll(ids: seq<Id>)
      modifies this`validators, this`slashing
      ensures validators == old(validators) - Members(ids) && slashing == old(slashing) - Members(ids)
    {
      for i := 0 to |ids|
        invariant validators == old(validators) - Members(ids[..i]) && slashing == old(slashing) - Members(ids[..i])
      {
        assert ids[..i + 1] == ids[..i] + [ids[i]];
        MembersExtend(ids[..i], ids[i]);
        validators, slashing := validators - {ids[i]}, slashing - {ids[i]};
      }
      assert ids[..|ids|] == ids;
    }

    method AddAll(add: seq<(Id, S)>)
      modifies this`validators
      ensures validators == old(validators) + NodesOf(add)
    {
      for i := 0 to |add|
        invariant validators == old(validators) + NodesOf(add[..i])
      {
        NodesExtend(add, i);
        validators := validators[add[i].0 := add[i].1];
      }
      assert add[..|add|] == add;
    }

    method ValidateUpdate(update: Update<S>) returns (r: Result<(), ConsensusError>)
      ensures r.Ok? <==> UpdateValid(update)
    {
      var addIds: set<Id> := {};
      for i := 0 to |update.add|
        invariant addIds == Members(Names(update.add[..i]))
        invariant forall j | 0 <= j < i :: update.add[j].0 !in validators && update.add[j].0 in addIds
        invariant forall j, k | 0 <= j < k < i :: update.add[j].0 != update.add[k].0
      {
        var id := update.add[i].0;
        assert Names(update.add[..i + 1]) == Names(update.add[..i]) + [id];
        MembersExtend(Names(update.add[..i]), id);
        if id in addIds || id in validators { return Err(DuplicateValidator(id)); }
        addIds := addIds + {id};
      }
      var removeIds: set<Id> := {};
      for i := 0 to |update.remove|
        invariant removeIds == Members(update.remove[..i])
        invariant forall j | 0 <= j < i :: update.remove[j] in validators && update.remove[j] in removeIds
        invariant forall j, k | 0 <= j < k < i :: update.remove[j] != update.remove[k]
      {
        var id := update.remove[i];
        assert update.remove[..i + 1] == update.remove[..i] + [id];
        MembersExtend(update.remove[..i], id);
        if id in removeIds || id !in validators { return Err(UnknownValidator(id)); }
        removeIds := removeIds + {id};
      }
      if |validators| + |update.add| - |update.remove| == 0 { return Err(ValidatorSetWouldBeEmpty); }
      r := Ok(());
    }

    lemma RemainSome(update: Update<S>)
      requires UpdateValid(update)
      ensures (validators.Keys - Members(update.remove)) + Members(Names(update.add)) != {}
      ensures DistinctNames(update.add) && forall i | 0 <= i < |update.add| :: update.add[i].0 !in validators
    {
      if update.add != [] {
        assert Names(update.add)[0] in Members(Names(update.add));
      } else {
        DistinctCount(update.remove);
        assert Members(update.remove) <= validators.Keys;
        CountDifference(validators.Keys, Members(update.remove));
        assert |validators| == |validators.Keys|;
      }
    }
  }

  /** A cluster of the given members in the given states, unless there are none or one is named twice. */
  method NewCluster<S(==, !new), B(!new), E(!new)>(apply: (S, B) -> Result<S, E>, headerOf: B -> Header,
                                                   hashOf: B -> string, members: seq<(Id, S)>)
    returns (r: Result<Cluster<S, B, E>, ConsensusError>)
    ensures r.Ok? <==> members != [] && DistinctNames(members)
    ensures r.Ok? ==> fresh(r.value) && r.value.Valid() && r.value.slashing == map[] && r.value.applied == {}
                      && r.value.apply == apply && r.value.headerOf == headerOf && r.value.hashOf == hashOf
    ensures r.Ok? ==> r.value.validators == NodesOf(members) && r.value.validators.Keys == Members(Names(members))
                      && forall i | 0 <= i < |members| ::
                           members[i].0 in r.value.validators && r.value.validators[members[i].0] == members[i].1
  {
    hide DistinctNames, Names, Members, NodesOf;
    NoNames(members);
    if members == [] { return Err(EmptyValidatorSet); }
    var nodes: map<Id, S> := map[];
    for i := 0 to |members|
      invariant nodes == NodesOf(members[..i]) && nodes.Keys == Members(Names(members[..i]))
                && DistinctNames(members[..i])
    {
      var (id, state) := members[i];
      AddName(members, i);
      NodesExtend(members, i);
      if id in nodes { return Err(DuplicateValidator(id)); }
      nodes := nodes[id := state];
    }
    assert members[..|members|] == members;
    NodesHold(members);
    var cluster := new Cluster(apply, headerOf, hashOf, nodes);
    r := Ok(cluster);
  }

  /** The members with their states; of two entries under one name the later counts. */
  function NodesOf<S>(add: seq<(Id, S)>): map<Id, S> {
    if add == [] then map[]
    else NodesOf(add[..|add| - 1])[add[|add| - 1].0 := add[|add| - 1].1]
  }

  lemma NodesExtend<S>(add: seq<(Id, S)>, i: nat)
    requires i < |add|
    ensures NodesOf(add[..i + 1]) == NodesOf(add[..i])[add[i].0 := add[i].1]
    ensures NodesOf(add[..0]) == map[]
  {
    assert add[..i + 1][..i] == add[..i];
  }

  /** Under distinct names everyone named is there, in the state given. */
  lemma {:induction false} NodesHold<S>(add: seq<(Id, S)>)
    requires DistinctNames(add)
    ensures NodesOf(add).Keys == Members(Names(add))
    ensures forall i | 0 <= i < |add| :: add[i].0 in NodesOf(add) && NodesOf(add)[add[i].0] == add[i].1
  {
    if add != [] {
      var last := |add| - 1;
      NodesHold(add[..last]);
      assert Names(add) == Names(add[..last]) + [add[last].0];
      MembersExtend(Names(add[..last]), add[last].0);
      forall i | 0 <= i < last ensures add[i].0 in NodesOf(add) && NodesOf(add)[add[i].0] == add[i].1 {
        assert add[..last][i] == add[i];
      }
    }
  }

  /** The newcomers are in the states given, the survivors in the states they had, and there is no one else. */
  ghost predicate Replaced<S>(before: map<Id, S>, after: map<Id, S>, remove: seq<Id>, add: seq<(Id, S)>) {
    && after.Keys == (before.Keys - Members(remove)) + Members(Names(add))
    && (forall i | 0 <= i < |add| :: add[i].0 in after && after[add[i].0] == add[i].1)
    && (forall id | id in before && id !in Members(remove) :: id in after && after[id] == before[id])
  }

  lemma Updated<S>(before: map<Id, S>, slashed: set<Id>, remove: seq<Id>, add: seq<(Id, S)>)
    requires DistinctNames(add) && (forall i | 0 <= i < |add| :: add[i].0 !in before) && slashed <= before.Keys
    ensures var after := (before - Members(remove)) + NodesOf(add);
            && Replaced(before, after, remove, add) && slashed - Members(remove) <= after.Keys
            && after.Keys == (before.Keys - Members(remove)) + Members(Names(add))
  {
    NodesHold(add);
    forall id | id in before ensures id !in NodesOf(add) { AbsentNode(add, id); }
  }

  lemma AbsentNode<S>(add: seq<(Id, S)>, id: Id)
    requires DistinctNames(add) && forall i | 0 <= i < |add| :: add[i].0 != id
    ensures id !in NodesOf(add)
  {
    NodesHold(add);
  }

  lemma NoNames<S>(members: seq<(Id, S)>)
    ensures Members(Names(members[..0])) == {} && DistinctNames(members[..0]) && NodesOf(members[..0]) == map[]
    ensures members != [] ==> Members(Names(members)) != {}
  {
    if members != [] { assert Names(members)[0] in Members(Names(members)); }
  }

  predicate DistinctNames<S>(members: seq<(Id, S)>) {
    forall i, j | 0 <= i < j < |members| :: members[i].0 != members[j].0
  }

  lemma AddName<S>(members: seq<(Id, S)>, n: nat)
    requires n < |members| && DistinctNames(members[..n])
    ensures Members(Names(members[..n + 1])) == Members(Names(members[..n])) + {members[n].0}
    ensures DistinctNames(members[..n + 1]) <==> members[n].0 !in Members(Names(members[..n]))
    ensures members[n].0 in Members(Names(members[..n])) ==> !DistinctNames(members)
  {
    var id := members[n].0;
    assert Names(members[..n + 1]) == Names(members[..n]) + [id];
    MembersExtend(Names(members[..n]), id);
    if id in Members(Names(members[..n])) {
      var j :| 0 <= j < n && Names(members[..n])[j] == id;
      assert members[..n + 1][j].0 == members[..n + 1][n].0;
      assert members[j].0 == members[n].0;
    } else {
      forall j | 0 <= j < n ensures members[j].0 != id { assert Names(members[..n])[j] == members[j].0; }
    }
  }

  function Names<S>(add: seq<(Id, S)>): seq<Id> {
    seq(|add|, i requires 0 <= i < |add| => add[i].0)
  }

  /** One vote for the block from each of `voters`, and no other votes. */
  ghost predicate AllFor(votes: seq<Vote>, height: nat, blockHash: string, voters: set<Id>) {
    && (forall i | 0 <= i < |votes| :: votes[i].height == height && votes[i].blockHash == blockHash
          && votes[i].validator in voters)
    && (forall id | id in voters :: Vote(id, height, blockHash) in votes)
  }

  lemma VotersExtend(votes: seq<Vote>, height: nat, blockHash: string, voters: set<Id>, id: Id)
    requires AllFor(votes, height, blockHash, voters)
    ensures AllFor(votes + [Vote(id, height, blockHash)], height, blockHash, voters + {id})
  {
    var longer := votes + [Vote(id, height, blockHash)];
    assert longer[|votes|] == Vote(id, height, blockHash);
    forall x | x in voters ensures Vote(x, height, blockHash) in longer {
      var i :| 0 <= i < |votes| && votes[i] == Vote(x, height, blockHash);
      assert longer[i] == votes[i];
    }
  }

  /** Votes for one block are all in its support, and none conflict. */
  lemma AllSupport(votes: seq<Vote>, height: nat, blockHash: string, voters: set<Id>)
    requires AllFor(votes, height, blockHash, voters)
    ensures Supporters(votes, height, blockHash) == voters && !DoubleVoted(votes)
  {
    forall id | id in voters ensures id in Supporters(votes, height, blockHash) {
      var i :| 0 <= i < |votes| && votes[i] == Vote(id, height, blockHash);
      assert votes[i].validator == id;
    }
  }

  lemma NoConflictAmong(some: seq<Vote>, all: seq<Vote>)
    requires !DoubleVoted(all) && forall v | v in some :: v in all
    ensures !DoubleVoted(some)
  {
    forall i, j | 0 <= i < j < |some| ensures !Conflict(some[i], some[j]) {
      assert some[i] in all && some[j] in all;
      var x :| 0 <= x < |all| && all[x] == some[i];
      var y :| 0 <= y < |all| && all[y] == some[j];
      if x < y { assert !Conflict(all[x], all[y]); } else if y < x { assert !Conflict(all[y], all[x]); }
    }
  }

  lemma {:induction false} DistinctCount(ids: seq<Id>)
    requires forall i, j | 0 <= i < j < |ids| :: ids[i] != ids[j]
    ensures |Members(ids)| == |ids|
  {
    if ids != [] {
      var last := |ids| - 1;
      DistinctCount(ids[..last]);
      assert ids == ids[..last] + [ids[last]];
      MembersExtend(ids[..last], ids[last]);
    }
  }

  lemma CountDifference(all: set<Id>, some: set<Id>)
    requires some <= all
    ensures |all - some| == |all| - |some|
  {
    assert all == (all - some) + some;
  }
}
