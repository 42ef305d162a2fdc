/**
  Merkle commitments with duplicate-last padding.  Hashing is free: the domain tags
  and length prefixes of the source make a leaf, a node and the empty root distinct
  and injective in their parts.
*/
module Merkle {
  import opened Common

  datatype Hash<T> = EmptyRoot | Leaf(value: T) | Node(left: Hash<T>, right: Hash<T>)

  datatype Side = Left | Right

  datatype Step<T> = Step(side: Side, sibling: Hash<T>)

  datatype Proof<T> = Proof(root: Hash<T>, leafHash: Hash<T>, index: nat, leafCount: nat, path: seq<Step<T>>)

  function Leaves<T>(values: seq<T>): seq<Hash<T>> {
    seq(|values|, i requires 0 <= i < |values| => Leaf(values[i]))
  }

  /** One level up: neighbours are paired, and a last node without a partner is paired with itself. */
  function NextLevel<T>(level: seq<Hash<T>>): (r: seq<Hash<T>>)
    ensures |r| == (|level| + 1) / 2
    ensures forall i | 0 <= i < |r| ::
              r[i] == Node(level[2 * i], if 2 * i + 1 < |level| then level[2 * i + 1] else level[2 * i])
  {
    if level == [] then []
    else if |level| == 1 then [Node(level[0], level[0])]
    else [Node(level[0], level[1])] + NextLevel(level[2..])
  }

  function RootOfLevel<T>(level: seq<Hash<T>>): Hash<T>
    requires level != []
    decreases |level|
  {
    if |level| == 1 then level[0] else RootOfLevel(NextLevel(level))
  }

  function Root<T>(values: seq<T>): Hash<T> {
    if values == [] then EmptyRoot else RootOfLevel(Leaves(values))
  }

  function SiblingIndex(index: nat, count: nat): (r: nat)
    requires index < count
    ensures r < count
  {
    if index % 2 == 1 then index - 1 else if index + 1 < count then index + 1 else index
  }

  function StepAt<T>(level: seq<Hash<T>>, index: nat): Step<T>
    requires index < |level|
  {
    var sibling := SiblingIndex(index, |level|);
    Step(if sibling < index then Left else Right, level[sibling])
  }

  function PathFrom<T>(level: seq<Hash<T>>, index: nat): seq<Step<T>>
    requires index < |level|
    decreases |level|
  {
    if |level| == 1 then [] else [StepAt(level, index)] + PathFrom(NextLevel(level), index / 2)
  }

  function ProofOf<T>(values: seq<T>, index: nat): Option<Proof<T>> {
    if index >= |values| then None
    else Some(Proof(Root(values), Leaf(values[index]), index, |values|, PathFrom(Leaves(values), index)))
  }

  function Climb<T>(h: Hash<T>, step: Step<T>): Hash<T> {
    match step.side case Left => Node(step.sibling, h) case Right => Node(h, step.sibling)
  }

  function Fold<T>(h: Hash<T>, path: seq<Step<T>>): Hash<T>
    decreases |path|
  {
    if path == [] then h else Fold(Climb(h, path[0]), path[1..])
  }

  predicate Verify<T(==)>(proof: Proof<T>, value: T) {
    proof.leafHash == Leaf(value) && Fold(proof.leafHash, proof.path) == proof.root
  }

  // -------------------------------------------------------- the loops of the source

  method NextMerkleLevel<T>(level: seq<Hash<T>>) returns (next: seq<Hash<T>>)
    ensures next == NextLevel(level)
  {
    next := [];
    var i := 0;
    while i < |level|
      invariant 0 <= i <= |level| + 1 && i % 2 == 0 && |next| == i / 2
      invariant forall j | 0 <= j < |next| && 2 * j < |level| ::
                  next[j] == Node(level[2 * j], if 2 * j + 1 < |level| then level[2 * j + 1] else level[2 * j])
    {
      var left := level[i];
      var right := if i + 1 < |level| then level[i + 1] else left;
      next := next + [Node(left, right)];
      i := i + 2;
    }
    assert |next| == |NextLevel(level)|;
    assert forall j | 0 <= j < |next| :: next[j] == NextLevel(level)[j];
  }

  method MerkleRoot<T>(values: seq<T>) returns (root: Hash<T>)
    ensures root == Root(values)
  {
    if values == [] { return EmptyRoot; }
    var level := Leaves(values);
    while |level| > 1
      invariant level != [] && RootOfLevel(level) == Root(values)
      decreases |level|
    {
      level := NextMerkleLevel(level);
    }
    root := level[0];
  }

  method MerkleProof<T>(values: seq<T>, index: nat) returns (r: Option<Proof<T>>)
    ensures r == ProofOf(values, index)
  {
    if index >= |values| { return None; }
    var root := MerkleRoot(values);
    var level, current, path := Leaves(values), index, [];
    ghost var whole := PathFrom(level, current);
    assert [] + whole == whole;
    while |level| > 1
      invariant level != [] && 0 <= current < |level|
      invariant path + PathFrom(level, current) == whole
      decreases |level|
    {
      var step := StepAt(level, current);
      assert (path + [step]) + PathFrom(NextLevel(level), current / 2) == path + PathFrom(level, current);
      path := path + [step];
      level := NextMerkleLevel(level);
      current := current / 2;
    }
    assert path + [] == path;
    r := Some(Proof(root, Leaf(values[index]), index, |values|, path));
  }

  method VerifyProof<T(==)>(proof: Proof<T>, value: T) returns (ok: bool)
    ensures ok == Verify(proof, value)
  {
    if proof.leafHash != Leaf(value) { return false; }
    var current := proof.leafHash;
    var i := 0;
    assert proof.path[0..] == proof.path;
    while i < |proof.path|
      invariant 0 <= i <= |proof.path|
      invariant Fold(current, proof.path[i..]) == Fold(proof.leafHash, proof.path)
    {
      assert proof.path[i..][1..] == proof.path[i + 1..];
      current := Climb(current, proof.path[i]);
      i := i + 1;
    }
    ok := current == proof.root;
  }

  // ----------------------------------------------------------------- completeness

  lemma {:induction false} PathLeadsToRoot<T>(level: seq<Hash<T>>, index: nat)
    requires index < |level|
    ensures Fold(level[index], PathFrom(level, index)) == RootOfLevel(level)
    decreases |level|
  {
    if |level| > 1 {
      var next := NextLevel(level);
      assert Climb(level[index], StepAt(level, index)) == next[index / 2];
      PathLeadsToRoot(next, index / 2);
      assert PathFrom(level, index)[1..] == PathFrom(next, index / 2);
    }
  }

  /** The proof generated for any position verifies against the root, through odd levels too. */
  lemma ProofsVerify<T>(values: seq<T>, index: nat)
    requires index < |values|
    ensures Verify(ProofOf(values, index).value, values[index])
  {
    PathLeadsToRoot(Leaves(values), index);
  }

  // ---------------------------------------------------------------------- binding

  /** The leaf values of a tree from left to right. */
  function Fringe<T>(h: Hash<T>): seq<T> {
    match h
    case EmptyRoot => []
    case Leaf(v) => [v]
    case Node(l, r) => Fringe(l) + Fringe(r)
  }

  function Fringes<T>(level: seq<Hash<T>>): seq<T> {
    if level == [] then [] else Fringe(level[0]) + Fringes(level[1..])
  }

  /** `pad` extends `s` with values of `s` only. */
  ghost predicate Pads<T>(s: seq<T>, pad: seq<T>) {
    s <= pad && forall x | x in pad :: x in s
  }

  lemma {:induction false} LevelPads<T>(level: seq<Hash<T>>)
    ensures Pads(Fringes(level), Fringes(NextLevel(level)))
    decreases |level|
  {
    if |level| == 1 {
      assert level[1..] == [] && NextLevel(level)[1..] == [];
    } else if level != [] {
      assert level[1..][1..] == level[2..];
      assert Fringes(level) == Fringe(level[0]) + (Fringe(level[1]) + Fringes(level[2..]));
      assert NextLevel(level)[1..] == NextLevel(level[2..]);
      assert Fringes(NextLevel(level)) == (Fringe(level[0]) + Fringe(level[1])) + Fringes(NextLevel(level[2..]));
      LevelPads(level[2..]);
      assert Fringes(level) == (Fringe(level[0]) + Fringe(level[1])) + Fringes(level[2..]);
    }
  }

  lemma {:induction false} RootPads<T>(level: seq<Hash<T>>)
    requires level != []
    ensures Pads(Fringes(level), Fringe(RootOfLevel(level)))
    decreases |level|
  {
    if |level| == 1 {
      assert level[1..] == [];
      assert Fringes(level) == Fringe(level[0]) + [];
    } else {
      LevelPads(level);
      RootPads(NextLevel(level));
    }
  }

  lemma {:induction false} FringesOfLeaves<T>(values: seq<T>)
    ensures Fringes(Leaves(values)) == values
  {
    if values != [] {
      assert Leaves(values)[1..] == Leaves(values[1..]);
      FringesOfLeaves(values[1..]);
    }
  }

  /** The leaves of a list's root are the list, then repeats of its entries. */
  lemma RootPadsValues<T>(values: seq<T>)
    ensures Pads(values, Fringe(Root(values)))
  {
    if values != [] {
      FringesOfLeaves(values);
      RootPads(Leaves(values));
    }
  }

  lemma {:induction false} FoldKeepsFringe<T>(h: Hash<T>, path: seq<Step<T>>, v: T)
    requires v in Fringe(h)
    ensures v in Fringe(Fold(h, path))
    decreases |path|
  {
    if path != [] { FoldKeepsFringe(Climb(h, path[0]), path[1..], v); }
  }

  /** A proof that verifies against the root of a list shows that the value is in the list. */
  lemma InclusionSound<T>(values: seq<T>, proof: Proof<T>, v: T)
    requires Verify(proof, v) && proof.root == Root(values)
    ensures v in values
  {
    FoldKeepsFringe(Leaf(v), proof.path, v);
    RootPadsValues(values);
  }

  ghost predicate Distinct<T>(s: seq<T>) {
    forall i, j | 0 <= i < j < |s| :: s[i] != s[j]
  }

  /** Of two lists with the same padding the longer one repeats an entry of the shorter. */
  lemma LongerRepeats<T>(a: seq<T>, b: seq<T>, pad: seq<T>) returns (i: nat)
    requires |a| < |b| && Pads(a, pad) && Pads(b, pad)
    ensures i < |a| && b[i] == b[|a|]
  {
    assert b[|a|] == pad[|a|] && pad[|a|] in pad;
    i :| 0 <= i < |a| && a[i] == b[|a|];
    assert a[i] == pad[i] == b[i];
  }

  /** Lists without repeated entries have equal roots only if they are equal. */
  lemma RootBinds<T>(a: seq<T>, b: seq<T>)
    requires Distinct(a) && Distinct(b) && Root(a) == Root(b)
    ensures a == b
  {
    RootPadsValues(a);
    RootPadsValues(b);
    var pad := Fringe(Root(a));
    if |a| < |b| {
      var i := LongerRepeats(a, b, pad);
    } else if |b| < |a| {
      var i := LongerRepeats(b, a, pad);
    } else {
      assert a == pad[..|a|] == b;
    }
  }

  /** With repeats the root does not bind: padding a list by hand gives the root it already had. */
  lemma RepeatsCollide<T>(x: T, y: T)
    ensures Root([x, y, y]) == Root([x, y, y, y]) && [x, y, y] != [x, y, y, y]
  {
    var three, four := Leaves([x, y, y]), Leaves([x, y, y, y]);
    assert NextLevel(three) == NextLevel(four);
  }

  /** A map listed once per key in some order. */
  ghost predicate Lists<K, V>(entries: seq<(K, V)>, m: map<K, V>) {
    && (forall i, j | 0 <= i < j < |entries| :: entries[i].0 != entries[j].0)
    && (forall i | 0 <= i < |entries| :: entries[i].0 in m && m[entries[i].0] == entries[i].1)
    && (forall k | k in m :: exists i :: 0 <= i < |entries| && entries[i].0 == k)
  }

  /** Equal storage or registry roots mean equal maps. */
  lemma MapRootBinds<K, V>(a: map<K, V>, b: map<K, V>, as_: seq<(K, V)>, bs: seq<(K, V)>)
    requires Lists(as_, a) && Lists(bs, b) && Root(as_) == Root(bs)
    ensures a == b
  {
    RootBinds(as_, bs);
    forall k | k in a ensures k in b && a[k] == b[k] {
      var i :| 0 <= i < |as_| && as_[i].0 == k;
      assert bs[i] == as_[i];
    }
    forall k | k in b ensures k in a {
      var i :| 0 <= i < |bs| && bs[i].0 == k;
      assert as_[i] == bs[i];
    }
  }

  // -------------------------------------------------------------------- positions

  /** The position a path spells: one bit per level, set where the sibling stands on the left. */
  function PathIndex<T>(path: seq<Step<T>>): nat {
    if path == [] then 0 else (if path[0].side.Left? then 1 else 0) + 2 * PathIndex(path[1..])
  }

  /** The entry that stands at position `p` of the padded tree over `n` entries. */
  function Position(n: nat, p: nat): (i: nat)
    requires n > 0
    ensures i < n
    decreases n
  {
    if n == 1 then 0
    else
      var j := Position((n + 1) / 2, p / 2);
      if p % 2 == 1 && 2 * j + 1 < n then 2 * j + 1 else 2 * j
  }

  function Height(n: nat): nat
    requires n > 0
  {
    if n == 1 then 0 else 1 + Height((n + 1) / 2)
  }

  /** Every leaf lies exactly `d` levels below the top. */
  ghost predicate Uniform<T>(h: Hash<T>, d: nat) {
    if d == 0 then h.Leaf? else h.Node? && Uniform(h.left, d - 1) && Uniform(h.right, d - 1)
  }

  lemma {:induction false} RootUniform<T>(level: seq<Hash<T>>, d: nat)
    requires level != [] && forall i | 0 <= i < |level| :: Uniform(level[i], d)
    ensures Uniform(RootOfLevel(level), d + Height(|level|))
    decreases |level|
  {
    if |level| > 1 {
      forall i | 0 <= i < |NextLevel(level)| ensures Uniform(NextLevel(level)[i], d + 1) {
        assert Uniform(level[2 * i], d);
      }
      RootUniform(NextLevel(level), d + 1);
    }
  }

  lemma {:induction false} UniformBelow<T>(h: Hash<T>, path: seq<Step<T>>, d: nat)
    requires Uniform(Fold(h, path), d)
    ensures |path| <= d && Uniform(h, d - |path|)
    decreases |path|
  {
    if path != [] {
      UniformBelow(Climb(h, path[0]), path[1..], d);
    }
  }

  /** One step of a path: the node below is the child that the step's side says. */
  lemma StepPins<T>(level: seq<Hash<T>>, h: Hash<T>, step: Step<T>, j: nat)
    requires j < |NextLevel(level)| && Climb(h, step) == NextLevel(level)[j]
    ensures h == (if step.side.Left? && 2 * j + 1 < |level| then level[2 * j + 1] else level[2 * j])
  {
  }

  lemma PositionStep(n: nat, side: Side, p: nat)
    requires n > 1
    ensures var j := Position((n + 1) / 2, p);
            Position(n, (if side.Left? then 1 else 0) + 2 * p)
            == (if side.Left? && 2 * j + 1 < n then 2 * j + 1 else 2 * j)
  {
    assert ((if side.Left? then 1 else 0) + 2 * p) / 2 == p;
  }

  lemma {:induction false} PathPins<T>(level: seq<Hash<T>>, h: Hash<T>, path: seq<Step<T>>)
    requires level != [] && |path| == Height(|level|) && Fold(h, path) == RootOfLevel(level)
    ensures h == level[Position(|level|, PathIndex(path))]
    decreases |level|
  {
    if |level| > 1 {
      hide NextLevel, Position;
      var next, p := NextLevel(level), PathIndex(path[1..]);
      PathPins(next, Climb(h, path[0]), path[1..]);
      StepPins(level, h, path[0], Position(|next|, p));
      PositionStep(|level|, path[0].side, p);
    } else {
      assert Position(|level|, PathIndex(path)) == 0;
    }
  }

  lemma PathHeight<T>(values: seq<T>, proof: Proof<T>, v: T)
    requires values != [] && Verify(proof, v) && proof.root == Root(values)
    ensures |proof.path| == Height(|values|)
  {
    hide RootOfLevel, Fold, Height;
    RootUniform(Leaves(values), 0);
    UniformBelow(Leaf(v), proof.path, Height(|values|));
  }

  /** A verified proof shows which entry it is about: the one standing at the position its path spells. */
  lemma PositionSound<T>(values: seq<T>, proof: Proof<T>, v: T)
    requires values != [] && Verify(proof, v) && proof.root == Root(values)
    ensures values[Position(|values|, PathIndex(proof.path))] == v
    ensures PathIndex(proof.path) < |values| ==> values[PathIndex(proof.path)] == v
  {
    PathHeight(values, proof, v);
    PathPins(Leaves(values), Leaf(v), proof.path);
    if PathIndex(proof.path) < |values| { PositionItself(|values|, PathIndex(proof.path)); }
  }

  lemma {:induction false} PositionItself(n: nat, p: nat)
    requires p < n
    ensures Position(n, p) == p
    decreases n
  {
    if n > 1 { PositionItself((n + 1) / 2, p / 2); }
  }

  /** Neighbouring positions of the padded tree hold neighbouring entries, or step back. */
  lemma {:induction false} Consecutive(n: nat, p: nat)
    requires n > 0
    ensures Position(n, p + 1) == Position(n, p) + 1 || Position(n, p + 1) <= Position(n, p)
    decreases n
  {
    if n > 1 && p % 2 == 1 {
      assert (p + 1) / 2 == p / 2 + 1;
      Consecutive((n + 1) / 2, p / 2);
    } else if n > 1 {
      assert (p + 1) / 2 == p / 2;
    }
  }

  /** Nothing stands to the right of the path: each sibling is on the left, or is the node paired with itself. */
  predicate Rightmost<T(==)>(h: Hash<T>, path: seq<Step<T>>)
    decreases |path|
  {
    path == [] || ((path[0].side.Left? || path[0].sibling == h) && Rightmost(Climb(h, path[0]), path[1..]))
  }

  lemma {:induction false} RightmostIsLast<T>(level: seq<Hash<T>>, h: Hash<T>, path: seq<Step<T>>)
    requires level != [] && |path| == Height(|level|) && Fold(h, path) == RootOfLevel(level) && Rightmost(h, path)
    ensures h == level[|level| - 1]
    decreases |level|
  {
    if |level| > 1 {
      RightmostIsLast(NextLevel(level), Climb(h, path[0]), path[1..]);
    }
  }

  /** A verified proof along a rightmost path is about the last entry. */
  lemma LastPinned<T>(values: seq<T>, proof: Proof<T>, v: T)
    requires values != [] && Verify(proof, v) && proof.root == Root(values) && Rightmost(proof.leafHash, proof.path)
    ensures values[|values| - 1] == v
  {
    PathHeight(values, proof, v);
    RightmostIsLast(Leaves(values), Leaf(v), proof.path);
  }

  /** The path generated for a position spells that position. */
  lemma {:induction false} PathSpellsIndex<T>(level: seq<Hash<T>>, index: nat)
    requires index < |level|
    ensures PathIndex(PathFrom(level, index)) == index
    decreases |level|
  {
    if |level| > 1 {
      PathSpellsIndex(NextLevel(level), index / 2);
      assert PathFrom(level, index)[1..] == PathFrom(NextLevel(level), index / 2);
    }
  }

  /** The path generated for the last position is rightmost. */
  lemma {:induction false} LastIsRightmost<T>(level: seq<Hash<T>>, last: nat)
    requires last + 1 == |level|
    ensures Rightmost(level[last], PathFrom(level, last))
    decreases |level|
  {
    if |level| > 1 {
      var next := NextLevel(level);
      LastIsRightmost(next, last / 2);
      assert PathFrom(level, last)[1..] == PathFrom(next, last / 2);
      assert Climb(level[last], StepAt(level, last)) == next[last / 2];
    }
  }

  // ---------------------------------------------------------------- non-inclusion

  ghost predicate StrictTotalOrder<K(!new)>(less: (K, K) -> bool) {
    && (forall a :: !less(a, a))
    && (forall a, b :: a != b ==> less(a, b) || less(b, a))
    && (forall a, b, c :: less(a, b) && less(b, c) ==> less(a, c))
  }

  ghost predicate Sorted<K, V>(less: (K, K) -> bool, entries: seq<(K, V)>) {
    forall i, j | 0 <= i < j < |entries| :: less(entries[i].0, entries[j].0)
  }

  /** An entry with a proof of its inclusion. */
  datatype EntryProof<K, V> = EntryProof(key: K, value: V, proof: Proof<(K, V)>)

  datatype AbsenceProof<K, V> = AbsenceProof(
    key: K, root: Hash<(K, V)>, leafCount: nat,
    predecessor: Option<EntryProof<K, V>>, successor: Option<EntryProof<K, V>>)

  predicate EntryValid<K(==), V(==)>(p: EntryProof<K, V>, root: Hash<(K, V)>) {
    Verify(p.proof, (p.key, p.value)) && p.proof.root == root
  }

  predicate VerifyAbsence<K(==), V(==)>(less: (K, K) -> bool, a: AbsenceProof<K, V>) {
    if a.leafCount == 0 then a.predecessor.None? && a.successor.None? && a.root == EmptyRoot
    else match (a.predecessor, a.successor)
      case (Some(p), Some(s)) =>
        && EntryValid(p, a.root) && EntryValid(s, a.root) && less(p.key, a.key) && less(a.key, s.key)
        && p.proof.index + 1 == s.proof.index && p.proof.leafCount == a.leafCount && s.proof.leafCount == a.leafCount
      case (None, Some(s)) =>
        EntryValid(s, a.root) && less(a.key, s.key) && s.proof.index == 0 && s.proof.leafCount == a.leafCount
      case (Some(p), None) =>
        EntryValid(p, a.root) && less(p.key, a.key) && p.proof.index + 1 == a.leafCount
          && p.proof.leafCount == a.leafCount
      case (None, None) => false
  }

  function EntryProofAt<K, V>(entries: seq<(K, V)>, i: nat): EntryProof<K, V>
    requires i < |entries|
  {
    EntryProof(entries[i].0, entries[i].1, ProofOf(entries, i).value)
  }

  /** The binary search for the position at which an absent key would be inserted. */
  method InsertionIndex<K(!new), V>(less: (K, K) -> bool, entries: seq<(K, V)>, key: K) returns (n: nat)
    requires StrictTotalOrder(less) && Sorted(less, entries)
    ensures n <= |entries|
    ensures forall i | 0 <= i < n :: less(entries[i].0, key)
    ensures forall i | n <= i < |entries| :: !less(entries[i].0, key)
  {
    var lo, hi := 0, |entries|;
    while lo < hi
      invariant 0 <= lo <= hi <= |entries|
      invariant forall i | 0 <= i < lo :: less(entries[i].0, key)
      invariant forall i | hi <= i < |entries| :: !less(entries[i].0, key)
    {
      var mid := (lo + hi) / 2;
      if less(entries[mid].0, key) {
        lo := mid + 1;
      } else {
        hi := mid;
      }
    }
    n := lo;
  }

  function AbsenceProofAt<K, V>(entries: seq<(K, V)>, key: K, n: nat): AbsenceProof<K, V>
    requires n <= |entries|
  {
    AbsenceProof(key, Root(entries), |entries|,
                 if n > 0 then Some(EntryProofAt(entries, n - 1)) else None,
                 if n < |entries| then Some(EntryProofAt(entries, n)) else None)
  }

  /** For every absent key the neighbours of its insertion point prove its absence. */
  method ProveAbsence<K(!new, ==), V(==)>(less: (K, K) -> bool, entries: seq<(K, V)>, key: K)
    returns (a: AbsenceProof<K, V>)
    requires StrictTotalOrder(less) && Sorted(less, entries)
    requires forall i | 0 <= i < |entries| :: entries[i].0 != key
    ensures a.key == key && a.root == Root(entries) && VerifyAbsence(less, a) && PathsAgree(a)
  {
    var n := InsertionIndex(less, entries, key);
    a := AbsenceProofAt(entries, key, n);
    AbsenceProofVerifies(less, entries, key, n);
  }

  /** The neighbours stand where their paths say, and a predecessor alone stands last. */
  predicate PathsAgree<K(==), V(==)>(a: AbsenceProof<K, V>) {
    && (a.predecessor.Some? ==> Placed(a.predecessor.value.proof))
    && (a.successor.Some? ==> Placed(a.successor.value.proof))
    && (a.predecessor.Some? && a.successor.None? ==>
          Rightmost(a.predecessor.value.proof.leafHash, a.predecessor.value.proof.path))
  }

  predicate Placed<T>(proof: Proof<T>) {
    proof.index == PathIndex(proof.path)
  }

  /**
    An absence proof whose positions agree with its paths is sound: the key is absent.  Only the proof and the
    root are looked at; the claimed leaf count is not trusted.
  */
  lemma AbsenceSound<K(!new), V>(less: (K, K) -> bool, entries: seq<(K, V)>, a: AbsenceProof<K, V>)
    requires StrictTotalOrder(less) && Sorted(less, entries) && a.root == Root(entries)
    requires VerifyAbsence(less, a) && PathsAgree(a)
    ensures forall i | 0 <= i < |entries| :: entries[i].0 != a.key
  {
    RootNotEmpty(entries);
    if entries != [] {
      if a.predecessor.Some? {
        EntryPinned(entries, a.predecessor.value);
      }
      if a.successor.Some? {
        EntryPinned(entries, a.successor.value);
      }
      if a.predecessor.Some? && a.successor.Some? {
        Consecutive(|entries|, a.predecessor.value.proof.index);
      } else if a.predecessor.Some? {
        LastPinned(entries, a.predecessor.value.proof, (a.predecessor.value.key, a.predecessor.value.value));
      } else {
        PositionItself(|entries|, 0);
      }
    }
  }

  lemma EntryPinned<K, V>(entries: seq<(K, V)>, p: EntryProof<K, V>)
    requires entries != [] && EntryValid(p, Root(entries)) && Placed(p.proof)
    ensures entries[Position(|entries|, p.proof.index)] == (p.key, p.value)
  {
    PositionSound(entries, p.proof, (p.key, p.value));
  }

  /** Exactly the absent keys have such a proof: this is the condition under which non-inclusion can be believed. */
  lemma AbsenceExact<K(!new), V>(less: (K, K) -> bool, entries: seq<(K, V)>, key: K)
    requires StrictTotalOrder(less) && Sorted(less, entries)
    ensures (forall i | 0 <= i < |entries| :: entries[i].0 != key)
       <==> exists a: AbsenceProof<K, V> ::
              a.key == key && a.root == Root(entries) && VerifyAbsence(less, a) && PathsAgree(a)
  {
    if forall i | 0 <= i < |entries| :: entries[i].0 != key {
      var n := InsertionPoint(less, entries, key, |entries|);
      AbsenceProofVerifies(less, entries, key, n);
      var a := AbsenceProofAt(entries, key, n);
      assert a.key == key && a.root == Root(entries) && VerifyAbsence(less, a) && PathsAgree(a);
    } else if a: AbsenceProof<K, V> :|
        a.key == key && a.root == Root(entries) && VerifyAbsence(less, a) && PathsAgree(a) {
      AbsenceSound(less, entries, a);
    }
  }

  lemma {:induction false} InsertionPoint<K(!new), V>(less: (K, K) -> bool, entries: seq<(K, V)>, key: K, top: nat)
    returns (n: nat)
    requires StrictTotalOrder(less) && Sorted(less, entries) && top <= |entries|
    requires forall i | top <= i < |entries| :: !less(entries[i].0, key)
    ensures n <= |entries|
    ensures forall i | 0 <= i < n :: less(entries[i].0, key)
    ensures forall i | n <= i < |entries| :: !less(entries[i].0, key)
    decreases top
  {
    if top == 0 || less(entries[top - 1].0, key) {
      n := top;
    } else {
      n := InsertionPoint(less, entries, key, top - 1);
    }
  }

  lemma AbsenceProofVerifies<K(!new), V>(less: (K, K) -> bool, entries: seq<(K, V)>, key: K, n: nat)
    requires StrictTotalOrder(less) && Sorted(less, entries) && n <= |entries|
    requires forall i | 0 <= i < |entries| :: entries[i].0 != key
    requires forall i | 0 <= i < n :: less(entries[i].0, key)
    requires forall i | n <= i < |entries| :: !less(entries[i].0, key)
    ensures VerifyAbsence(less, AbsenceProofAt(entries, key, n)) && PathsAgree(AbsenceProofAt(entries, key, n))
  {
    if n > 0 {
      ProofsVerify(entries, n - 1);
      PathSpellsIndex(Leaves(entries), n - 1);
    }
    if n < |entries| {
      ProofsVerify(entries, n);
      PathSpellsIndex(Leaves(entries), n);
      assert !less(entries[n].0, key) && entries[n].0 != key;
    } else if n > 0 {
      LastIsRightmost(Leaves(entries), n - 1);
    }
  }

  lemma {:induction false} LevelRootNotEmpty<T>(level: seq<Hash<T>>)
    requires level != [] && forall i | 0 <= i < |level| :: level[i] != EmptyRoot
    ensures RootOfLevel(level) != EmptyRoot
    decreases |level|
  {
    if |level| > 1 { LevelRootNotEmpty(NextLevel(level)); }
  }

  lemma RootNotEmpty<T>(values: seq<T>)
    ensures Root(values) == EmptyRoot <==> values == []
  {
    if values != [] { LevelRootNotEmpty(Leaves(values)); }
  }

  /** Positions are not checked against the path, so a proof with a forged position "shows" a present key absent. */
  lemma ForgedPositionAccepted() returns (entries: seq<(int, int)>, a: AbsenceProof<int, int>)
    ensures Sorted((x, y) => x < y, entries) && a.root == Root(entries) && VerifyAbsence((x, y) => x < y, a)
    ensures exists i :: 0 <= i < |entries| && entries[i].0 == a.key
  {
    entries := [(1, 0), (2, 0), (3, 0)];
    ProofsVerify(entries, 0);
    ProofsVerify(entries, 2);
    var p, s := EntryProofAt(entries, 0), EntryProofAt(entries, 2);
    var forged := s.(proof := s.proof.(index := 1));
    a := AbsenceProof(2, Root(entries), 3, Some(p), Some(forged));
    assert Verify(forged.proof, (3, 0));
    assert entries[1].0 == a.key;
  }
}
