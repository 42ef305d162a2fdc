/**
  Directed graphs over names, with reachability stated by paths.  A node without
  an entry has no successors.
*/
module Graph {
  type Graph<K> = map<K, set<K>>

  function Successors<K>(g: Graph<K>, a: K): set<K> {
    if a in g then g[a] else {}
  }

  /** Consecutive nodes of `p` are joined by edges. */
  ghost predicate IsPath<K>(g: Graph<K>, p: seq<K>) {
    p != [] && forall i :: 0 <= i < |p| - 1 ==> p[i + 1] in Successors(g, p[i])
  }

  ghost predicate PathFromTo<K>(g: Graph<K>, p: seq<K>, a: K, b: K) {
    IsPath(g, p) && p[0] == a && p[|p| - 1] == b
  }

  /** `b` is reached from `a` in zero or more steps. */
  ghost predicate Reaches<K(!new)>(g: Graph<K>, a: K, b: K) {
    exists p :: PathFromTo(g, p, a, b)
  }

  /** `b` is reached from `a` in one or more steps. */
  ghost predicate ReachesPlus<K(!new)>(g: Graph<K>, a: K, b: K) {
    exists c :: c in Successors(g, a) && Reaches(g, c, b)
  }

  ghost predicate Acyclic<K(!new)>(g: Graph<K>) {
    forall a :: !ReachesPlus(g, a, a)
  }

  ghost predicate Closed<K>(g: Graph<K>, s: set<K>) {
    forall a | a in s :: Successors(g, a) <= s
  }

  lemma ReachesSelf<K(!new)>(g: Graph<K>, a: K)
    ensures Reaches(g, a, a)
  {
    assert PathFromTo(g, [a], a, a);
  }

  lemma ReachesStep<K(!new)>(g: Graph<K>, a: K, b: K, c: K)
    requires b in Successors(g, a) && Reaches(g, b, c)
    ensures Reaches(g, a, c)
  {
    var p :| PathFromTo(g, p, b, c);
    assert PathFromTo(g, [a] + p, a, c);
  }

  lemma ReachesEdge<K(!new)>(g: Graph<K>, a: K, b: K, c: K)
    requires Reaches(g, a, b) && c in Successors(g, b)
    ensures Reaches(g, a, c)
    ensures ReachesPlus(g, a, c)
  {
    var p :| PathFromTo(g, p, a, b);
    var q := p + [c];
    assert PathFromTo(g, q, a, c);
    assert PathFromTo(g, q[1..], q[1], c);
    assert q[1] in Successors(g, a) && Reaches(g, q[1], c);
  }

  /** A set closed under successors holds everything its members reach. */
  lemma ClosedHoldsReachable<K(!new)>(g: Graph<K>, s: set<K>, a: K, b: K)
    requires Closed(g, s) && a in s && Reaches(g, a, b)
    ensures b in s
  {
    var p :| PathFromTo(g, p, a, b);
    ClosedAlongPath(g, s, p);
  }

  lemma {:induction false} ClosedAlongPath<K>(g: Graph<K>, s: set<K>, p: seq<K>)
    requires Closed(g, s) && IsPath(g, p) && p[0] in s
    ensures p[|p| - 1] in s
    decreases |p|
  {
    if |p| > 1 {
      assert p[1] in Successors(g, p[0]);
      ClosedAlongPath(g, s, p[1..]);
    }
  }

  // ------------------------------------------------- paths that avoid some nodes

  /** `b` is reached from `a` by a path none of whose nodes is in `avoid`. */
  ghost predicate ReachesAvoiding<K(!new)>(g: Graph<K>, a: K, b: K, avoid: set<K>) {
    exists p :: PathFromTo(g, p, a, b) && forall x | x in p :: x !in avoid
  }

  lemma AvoidNothing<K(!new)>(g: Graph<K>, a: K, b: K)
    ensures ReachesAvoiding(g, a, b, {}) <==> Reaches(g, a, b)
  {
    if Reaches(g, a, b) {
      var p :| PathFromTo(g, p, a, b);
      assert forall x | x in p :: x !in {};
    }
  }

  lemma AvoidingSelf<K(!new)>(g: Graph<K>, a: K, avoid: set<K>)
    requires a !in avoid
    ensures ReachesAvoiding(g, a, a, avoid)
  {
    assert PathFromTo(g, [a], a, a);
  }

  lemma AvoidingStep<K(!new)>(g: Graph<K>, a: K, c: K, b: K, avoid: set<K>)
    requires a !in avoid && c in Successors(g, a) && ReachesAvoiding(g, c, b, avoid + {a})
    ensures ReachesAvoiding(g, a, b, avoid)
  {
    var p :| PathFromTo(g, p, c, b) && forall x | x in p :: x !in avoid + {a};
    var q := [a] + p;
    assert PathFromTo(g, q, a, b);
    assert forall x | x in q :: x == a || x in p;
  }

  /**
    A path from `a` can be cut at the last visit to `a`: what `a` reaches besides
    itself is reached from one of its successors without coming back to `a`.
  */
  lemma AvoidingCut<K(!new)>(g: Graph<K>, a: K, b: K, avoid: set<K>) returns (c: K)
    requires ReachesAvoiding(g, a, b, avoid) && a != b
    ensures c in Successors(g, a) && c !in avoid + {a} && ReachesAvoiding(g, c, b, avoid + {a})
  {
    var p :| PathFromTo(g, p, a, b) && forall x | x in p :: x !in avoid;
    c := CutPath(g, p, a, b, avoid);
  }

  lemma {:induction false} CutPath<K(!new)>(g: Graph<K>, p: seq<K>, a: K, b: K, avoid: set<K>) returns (c: K)
    requires PathFromTo(g, p, a, b) && a != b && forall x | x in p :: x !in avoid
    ensures c in Successors(g, a) && c !in avoid + {a} && ReachesAvoiding(g, c, b, avoid + {a})
    decreases |p|
  {
    var q := p[1..];
    assert p[1] in Successors(g, p[0]);
    assert PathFromTo(g, q, p[1], b);
    if a in q {
      var i :| 0 <= i < |q| && q[i] == a;
      assert PathFromTo(g, q[i..], a, b);
      c := CutPath(g, q[i..], a, b, avoid);
    } else {
      c := p[1];
      assert c in q;
      assert forall x | x in q :: x !in avoid + {a};
    }
  }
}
