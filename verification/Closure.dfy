/**
  The aspects of a bundle: everything reachable by bundle inheritance, then
  inclusion, then aspect inheritance.  The verifier and the executor each carry
  their own collector; both are proved exact, even for cyclic inheritance.
*/
module Closure {
  import opened Graph
  import opened AspectIr

  /** The reference definition, by paths. */
  ghost predicate InClosure(m: Module, bundle: string, aspect: string) {
    exists b, a :: Reaches(BundleParents(m), bundle, b) && a in Includes(m, b) && Reaches(AspectParents(m), a, aspect)
  }

  /** Every name met while collecting `bundle` is declared. */
  ghost predicate WellReferenced(m: Module, bundle: string) {
    && (forall b :: Reaches(BundleParents(m), bundle, b) ==> b in m.bundles)
    && (forall a :: InClosure(m, bundle, a) ==> a in m.aspects)
  }

  /** Reached, avoiding `avoid`, from some node of `from`. */
  ghost predicate FromSome(g: Graph<string>, from: set<string>, b: string, avoid: set<string>) {
    exists p :: p in from && ReachesAvoiding(g, p, b, avoid)
  }

  lemma AvoidingUnfold(g: Graph<string>, a: string, avoid: set<string>)
    requires a !in avoid
    ensures forall b :: ReachesAvoiding(g, a, b, avoid) <==> b == a || FromSome(g, Successors(g, a), b, avoid + {a})
  {
    forall b ensures ReachesAvoiding(g, a, b, avoid) <==> b == a || FromSome(g, Successors(g, a), b, avoid + {a}) {
      if b == a {
        AvoidingSelf(g, a, avoid);
      } else if ReachesAvoiding(g, a, b, avoid) {
        var c := AvoidingCut(g, a, b, avoid);
        assert c in Successors(g, a) && ReachesAvoiding(g, c, b, avoid + {a});
      } else if FromSome(g, Successors(g, a), b, avoid + {a}) {
        var c :| c in Successors(g, a) && ReachesAvoiding(g, c, b, avoid + {a});
        AvoidingStep(g, a, c, b, avoid);
      }
    }
  }

  lemma AvoidingEndpoints(g: Graph<string>, a: string, b: string, avoid: set<string>)
    requires ReachesAvoiding(g, a, b, avoid)
    ensures a !in avoid && b !in avoid
  {
    var p :| PathFromTo(g, p, a, b) && forall x | x in p :: x !in avoid;
    assert p[0] in p && p[|p| - 1] in p;
  }

  /** What collecting bundle `b` adds when `avoid` are being visited. */
  ghost predicate Contributes(m: Module, bundle: string, aspect: string, avoid: set<string>) {
    exists b :: ReachesAvoiding(BundleParents(m), bundle, b, avoid) && Included(m, b, aspect)
  }

  /** Included in bundle `b` directly or by aspect inheritance. */
  ghost predicate Included(m: Module, b: string, aspect: string) {
    FromSome(AspectParents(m), Includes(m, b), aspect, {})
  }

  ghost predicate ContributesFromSome(m: Module, from: set<string>, aspect: string, avoid: set<string>) {
    exists p :: p in from && Contributes(m, p, aspect, avoid)
  }

  lemma ContributesUnfold(m: Module, b: string, avoid: set<string>)
    requires b !in avoid
    ensures forall x :: Contributes(m, b, x, avoid)
                   <==> Included(m, b, x) || ContributesFromSome(m, Successors(BundleParents(m), b), x, avoid + {b})
  {
    var g := BundleParents(m);
    AvoidingUnfold(g, b, avoid);
    forall x ensures Contributes(m, b, x, avoid)
                <==> Included(m, b, x) || ContributesFromSome(m, Successors(g, b), x, avoid + {b})
    {
      if Contributes(m, b, x, avoid) {
        var c :| ReachesAvoiding(g, b, c, avoid) && Included(m, c, x);
        if c != b {
          var p :| p in Successors(g, b) && ReachesAvoiding(g, p, c, avoid + {b});
          assert Contributes(m, p, x, avoid + {b});
        }
      }
      if Included(m, b, x) {
        AvoidingSelf(g, b, avoid);
      }
      if ContributesFromSome(m, Successors(g, b), x, avoid + {b}) {
        var p :| p in Successors(g, b) && Contributes(m, p, x, avoid + {b});
        var c :| ReachesAvoiding(g, p, c, avoid + {b}) && Included(m, c, x);
        AvoidingStep(g, b, p, c, avoid);
      }
    }
  }

  lemma ContributesIsClosure(m: Module, bundle: string)
    ensures forall x :: Contributes(m, bundle, x, {}) <==> InClosure(m, bundle, x)
  {
    forall x ensures Contributes(m, bundle, x, {}) <==> InClosure(m, bundle, x) {
      if Contributes(m, bundle, x, {}) {
        var b :| ReachesAvoiding(BundleParents(m), bundle, b, {}) && Included(m, b, x);
        var a :| a in Includes(m, b) && ReachesAvoiding(AspectParents(m), a, x, {});
        AvoidNothing(BundleParents(m), bundle, b);
        AvoidNothing(AspectParents(m), a, x);
      }
      if InClosure(m, bundle, x) {
        var b, a :| Reaches(BundleParents(m), bundle, b) && a in Includes(m, b) && Reaches(AspectParents(m), a, x);
        AvoidNothing(BundleParents(m), bundle, b);
        AvoidNothing(AspectParents(m), a, x);
        assert Included(m, b, x);
      }
    }
  }

  /** The traversals with the sets they update in place. */
  class Collector {
    const m: Module
    var visitingBundles: set<string>
    var visitingAspects: set<string>
    var closure: set<string>

    constructor (m: Module)
      ensures this.m == m && visitingBundles == {} && visitingAspects == {} && closure == {}
    {
      this.m := m;
      visitingBundles, visitingAspects, closure := {}, {}, {};
    }

    method CollectAspectWithParents(aspect: string) returns (ok: bool)
      modifies this`visitingAspects, this`closure
      ensures ok <==> forall b :: ReachesAvoiding(AspectParents(m), aspect, b, old(visitingAspects)) ==> b in m.aspects
      ensures ok ==> visitingAspects == old(visitingAspects)
      ensures ok ==> forall b :: (b in closure <==>
                b in old(closure) || ReachesAvoiding(AspectParents(m), aspect, b, old(visitingAspects)))
      decreases m.aspects.Keys - visitingAspects
    {
      ghost var g, avoid := AspectParents(m), visitingAspects;
      if aspect in visitingAspects {
        forall b | ReachesAvoiding(g, aspect, b, avoid) ensures false { AvoidingEndpoints(g, aspect, b, avoid); }
        return true;
      }
      visitingAspects := visitingAspects + {aspect};
      AvoidingUnfold(g, aspect, avoid);
      if aspect !in m.aspects {
        AvoidingSelf(g, aspect, avoid);
        return false;
      }
      var todo := m.aspects[aspect].parents;
      ghost var done: set<string> := {};
      while todo != {}
        invariant todo + done == Successors(g, aspect)
        invariant visitingAspects == avoid + {aspect}
        invariant forall b :: b in closure <==> b in old(closure) || FromSome(g, done, b, avoid + {aspect})
        invariant forall b :: FromSome(g, done, b, avoid + {aspect}) ==> b in m.aspects
        decreases todo
      {
        var parent :| parent in todo;
        var fine := CollectAspectWithParents(parent);
        if !fine {
          ghost var b :| ReachesAvoiding(g, parent, b, avoid + {aspect}) && b !in m.aspects;
          assert FromSome(g, Successors(g, aspect), b, avoid + {aspect});
          return false;
        }
        todo, done := todo - {parent}, done + {parent};
      }
      assert done == Successors(g, aspect);
      closure := closure + {aspect};
      visitingAspects := visitingAspects - {aspect};
      ok := true;
    }

    /** The includes loop, shared by the two bundle collectors; `shared` says which reset rule applies. */
    method CollectIncludes(bundle: string, shared: bool) returns (ok: bool)
      requires bundle in m.bundles && (shared ==> visitingAspects == {})
      modifies this`visitingAspects, this`closure
      ensures ok <==> forall x :: Included(m, bundle, x) ==> x in m.aspects
      ensures ok ==> forall x :: x in closure <==> x in old(closure) || Included(m, bundle, x)
      ensures ok && shared ==> visitingAspects == {}
    {
      var todo := m.bundles[bundle].includes;
      ghost var g := AspectParents(m);
      ghost var done: set<string> := {};
      while todo != {}
        invariant todo + done == Includes(m, bundle)
        invariant shared ==> visitingAspects == {}
        invariant forall x :: x in closure <==> x in old(closure) || FromSome(g, done, x, {})
        invariant forall x :: FromSome(g, done, x, {}) ==> x in m.aspects
        decreases todo
      {
        var aspect :| aspect in todo;
        if !shared { visitingAspects := {}; }
        var fine := CollectAspectWithParents(aspect);
        if !fine {
          ghost var b :| ReachesAvoiding(g, aspect, b, {}) && b !in m.aspects;
          assert Included(m, bundle, b);
          return false;
        }
        todo, done := todo - {aspect}, done + {aspect};
      }
      assert done == Includes(m, bundle);
      ok := true;
    }

    /** Both bundle collectors: the verifier resets the aspect guard per inclusion, the executor per bundle. */
    method CollectBundleAspects(bundle: string, perBundleGuard: bool) returns (ok: bool)
      modifies this
      ensures ok <==>
        && (forall b :: ReachesAvoiding(BundleParents(m), bundle, b, old(visitingBundles)) ==> b in m.bundles)
        && (forall x :: Contributes(m, bundle, x, old(visitingBundles)) ==> x in m.aspects)
      ensures ok ==> visitingBundles == old(visitingBundles)
      ensures ok ==> forall x :: (x in closure <==>
                x in old(closure) || Contributes(m, bundle, x, old(visitingBundles)))
      decreases m.bundles.Keys - visitingBundles
    {
      ghost var g, avoid := BundleParents(m), visitingBundles;
      if bundle in visitingBundles {
        forall b | ReachesAvoiding(g, bundle, b, avoid) ensures false { AvoidingEndpoints(g, bundle, b, avoid); }
        return true;
      }
      visitingBundles := visitingBundles + {bundle};
      AvoidingUnfold(g, bundle, avoid);
      ContributesUnfold(m, bundle, avoid);
      if bundle !in m.bundles {
        AvoidingSelf(g, bundle, avoid);
        return false;
      }
      var todo := m.bundles[bundle].parents;
      ghost var done: set<string> := {};
      while todo != {}
        invariant todo + done == Successors(g, bundle)
        invariant visitingBundles == avoid + {bundle}
        invariant forall x :: x in closure <==> x in old(closure) || ContributesFromSome(m, done, x, avoid + {bundle})
        invariant forall b :: FromSome(g, done, b, avoid + {bundle}) ==> b in m.bundles
        invariant forall x :: ContributesFromSome(m, done, x, avoid + {bundle}) ==> x in m.aspects
        decreases todo
      {
        var parent :| parent in todo;
        var fine := CollectBundleAspects(parent, perBundleGuard);
        if !fine {
          if b :| ReachesAvoiding(g, parent, b, avoid + {bundle}) && b !in m.bundles {
            assert FromSome(g, Successors(g, bundle), b, avoid + {bundle});
          } else {
            var x :| Contributes(m, parent, x, avoid + {bundle}) && x !in m.aspects;
            assert ContributesFromSome(m, Successors(g, bundle), x, avoid + {bundle});
          }
          return false;
        }
        todo, done := todo - {parent}, done + {parent};
      }
      assert done == Successors(g, bundle);
      visitingAspects := {};
      var fine := CollectIncludes(bundle, perBundleGuard);
      if !fine {
        ghost var x :| Included(m, bundle, x) && x !in m.aspects;
        assert Contributes(m, bundle, x, avoid);
        return false;
      }
      visitingBundles := visitingBundles - {bundle};
      ok := true;
    }
  }

  /**
    The closure of a bundle, as the verifier (`perBundleGuard == false`) and the
    executor (`true`) compute it: it succeeds exactly on well-referenced bundles and
    then is exactly the aspects reachable from the bundle, so the two agree.
  */
  method BundleAspectClosure(m: Module, bundle: string, perBundleGuard: bool) returns (ok: bool, closure: set<string>)
    ensures ok <==> WellReferenced(m, bundle)
    ensures ok ==> forall a :: a in closure <==> InClosure(m, bundle, a)
  {
    var walk := new Collector(m);
    ok := walk.CollectBundleAspects(bundle, perBundleGuard);
    closure := walk.closure;
    ContributesIsClosure(m, bundle);
    forall b ensures ReachesAvoiding(BundleParents(m), bundle, b, {}) <==> Reaches(BundleParents(m), bundle, b) {
      AvoidNothing(BundleParents(m), bundle, b);
    }
  }
}
