// No garbage goes unnoticed: whatever nothing outside reaches is reached by a candidate.

module Tracking {
  import opened Values
  import opened RefGraph
  import opened HeapState
  import opened Reaping

  /** Objects with a reference the collector takes as coming from outside. */
  ghost function Anchors(s: State): set<Ref> {
    set x | x in s.intact && (x in s.outside || x in s.held.hidden)
  }

  /** Every intact object that no anchor reaches is reached by a candidate. */
  ghost predicate Tracked(s: State) {
    forall x :: x in s.intact ==> ReachFrom(s.graph, Anchors(s) + s.unreferred, x)
  }

  /** From `s` to `t`, references were only given up: survivors keep their members, and
      whoever lost a reference is a candidate. */
  ghost predicate Loss(s: State, t: State) {
    && s.Wf() && t.Wf() && s.dying == {} && t.dying == {} && t.intact <= s.intact && t.outside <= s.outside
    && forall x :: x in t.intact ==>
         Untouched(s, t, x) && (t.refCount[x] < s.refCount[x] ==> x in t.unreferred)
  }

  /** What the survivors hold is part of what was held; the holdings of one that died
      are not. */
  lemma HeldLess(s: State, t: State)
    requires Loss(s, t)
    ensures t.held.scanned <= s.held.scanned && t.held.hidden <= s.held.hidden
  {
    hide Tally, State.Wf;
    LossHolds(s, t);
    HeldSum(s);
    HeldSum(t);
    TallyLess(s.graph, t.graph, s.graph.Keys, t.graph.Keys);
  }

  lemma DeadHeldNot(s: State, t: State, z: Ref)
    requires Loss(s, t) && z in s.graph && z !in t.intact
    ensures t.held.scanned + s.graph[z].scanned <= s.held.scanned
  {
    hide Tally, State.Wf;
    LossHolds(s, t);
    HeldSum(s);
    HeldSum(t);
    TallyTake(s.graph, s.graph.Keys, z);
    if z in t.graph {
      TallyTake(t.graph, t.graph.Keys, z);
    }
    TallySame(t.graph, t.graph, t.graph.Keys - {z});
    assert z !in t.graph ==> t.graph.Keys - {z} == t.graph.Keys;
    TallyLess(s.graph, t.graph, s.graph.Keys - {z}, t.graph.Keys - {z});
  }

  lemma LossHolds(s: State, t: State)
    requires Loss(s, t)
    ensures forall x :: x in t.graph ==> t.graph[x] == NoRefs() || (x in s.graph && t.graph[x] == s.graph[x])
    ensures forall x :: x in t.graph && x !in t.intact ==> t.graph[x] == NoRefs()
  {
    hide State.Wf;
    WfKeys(t);
    forall x | x in t.graph && x !in t.intact ensures t.graph[x] == NoRefs() {
      DeadIsEmpty(t, x);
      NoMembers(t, x);
    }
  }

  /** An anchor that survives stays one or becomes a candidate. */
  lemma AnchorKept(s: State, t: State, a: Ref)
    requires Loss(s, t) && a in Anchors(s) && a in t.intact
    ensures a in Anchors(t) + t.unreferred
  {
    hide State.Wf;
    HeldLess(s, t);
    RefCountIs(s, a);
    RefCountIs(t, a);
  }

  lemma RefCountIs(s: State, a: Ref)
    requires s.Wf()
    ensures s.refCount[a] == s.outside[a] + s.held.scanned[a] + s.held.hidden[a]
  {
  }

  /** Whoever the dead referred to is a candidate. */
  lemma OrphanListed(s: State, t: State, z: Ref, w: Ref)
    requires Loss(s, t) && Edge(s.graph, z, w) && z !in t.intact && w in t.intact
    ensures w in t.unreferred
  {
    hide State.Wf;
    HeldLess(s, t);
    DeadHeldNot(s, t, z);
    RefCountIs(s, w);
    RefCountIs(t, w);
    assert (t.held.scanned + s.graph[z].scanned)[w] <= s.held.scanned[w];
  }

  /** A survivor that something in `A` reached is reached by an anchor or a candidate. */
  lemma StillReached(s: State, t: State, A: set<Ref>, x: Ref)
    requires Loss(s, t) && x in t.intact && ReachFrom(s.graph, A, x)
    requires forall a :: a in A && a in t.intact ==> a in Anchors(t) + t.unreferred
    ensures ReachFrom(t.graph, Anchors(t) + t.unreferred, x)
  {
    hide State.Wf, Reach, Anchors;
    var roots := Anchors(t) + t.unreferred;
    var a :| a in A && Reach(s.graph, a, x);
    var D := set z | z in s.graph && (z in t.intact ==> ReachFrom(t.graph, roots, z));
    ReachIn(s.graph, a, x);
    if a in t.intact {
      Rooted(t, roots, a);
    }
    forall z, w | z in D && w in s.graph && Edge(s.graph, z, w) ensures w in D {
      if w in t.intact {
        if z in t.intact {
          EdgeKept(s, t, roots, z, w);
        } else {
          OrphanListed(s, t, z, w);
          Rooted(t, roots, w);
        }
      }
    }
    ReachClosed(s.graph, D, a, x);
  }

  lemma Rooted(t: State, roots: set<Ref>, a: Ref)
    requires t.Wf() && a in roots && a in t.intact
    ensures ReachFrom(t.graph, roots, a)
  {
    IntactCounted(t, a);
    ReachSelf(t.graph, a);
  }

  lemma EdgeKept(s: State, t: State, roots: set<Ref>, z: Ref, w: Ref)
    requires Loss(s, t) && z in t.intact && w in t.intact && Edge(s.graph, z, w) && ReachFrom(t.graph, roots, z)
    ensures ReachFrom(t.graph, roots, w)
  {
    hide State.Wf, Reach;
    var r :| r in roots && Reach(t.graph, r, z);
    IntactCounted(t, w);
    assert Untouched(s, t, z);
    ReachEdge(t.graph, z, w);
    ReachTrans(t.graph, r, z, w);
  }

  /** Giving up references keeps all garbage tracked. */
  lemma LossTracked(s: State, t: State)
    requires Loss(s, t) && Tracked(s) && s.unreferred * t.intact <= t.unreferred
    ensures Tracked(t)
  {
    hide State.Wf, Anchors, ReachFrom;
    forall a | a in Anchors(s) + s.unreferred && a in t.intact ensures a in Anchors(t) + t.unreferred {
      if a in Anchors(s) {
        AnchorKept(s, t, a);
      }
    }
    forall x | x in t.intact ensures ReachFrom(t.graph, Anchors(t) + t.unreferred, x) {
      StillReached(s, t, Anchors(s) + s.unreferred, x);
    }
  }

  /** So is what `Released` describes, between collections. */
  lemma ReleasedLoss(s: State, t: State, gone: Refs)
    requires s.Wf() && Freed(s, t, gone) && s.dying == {} && s.isolated == {}
    requires forall x :: x in s.intact ==> s.mark[x] == 0
    ensures Loss(s, t) && s.unreferred * t.intact <= t.unreferred && t.isolated == {} && t.dying == {}
  {
    hide Spares, Exactly, Sealed, State.Wf;
    forall x | x in t.intact ensures Untouched(s, t, x) && (t.refCount[x] < s.refCount[x] ==> x in t.unreferred) {
      IntactCounted(t, x);
      assert KeptMembers(s, t, x);
      assert t.mark == s.mark;
    }
  }

  // ---- what is reachable stays ---------------------------------------------------

  /** The graph of all strong references, whether the collector follows them or not. */
  ghost function StrongGraph(g: Graph): Graph {
    map x | x in g :: Refs(g[x].Strong(), multiset{}, multiset{})
  }

  /** Nothing that an outside reference leads to is destroyed. */
  lemma ReachableSurvives(s: State, t: State, a: Ref, x: Ref)
    requires s.Wf() && t.Wf() && (forall z :: z in t.intact ==> Untouched(s, t, z))
    requires a in t.outside && Reach(StrongGraph(s.graph), a, x)
    ensures x in t.intact
  {
    hide State.Wf, Reach;
    var g := StrongGraph(s.graph);
    Outside(t, a);
    forall z, w | z in t.intact && w in g && Edge(g, z, w) ensures w in t.intact {
      assert Untouched(s, t, z);
      HeldIntact(t, z, w);
    }
    ReachClosed(g, t.intact, a, x);
  }

  lemma ReachStrong(g: Graph, a: Ref, x: Ref)
    requires Reach(g, a, x)
    ensures Reach(StrongGraph(g), a, x)
  {
    var p :| IsPath(g, p) && p[0] == a && p[|p| - 1] == x;
    forall i | 0 <= i < |p| - 1 ensures Edge(StrongGraph(g), p[i], p[i + 1]) {
      assert Edge(g, p[i], p[i + 1]);
    }
    assert IsPath(StrongGraph(g), p);
  }

  /** What is reached among survivors was reached before. */
  lemma ReachBefore(s: State, t: State, a: Ref, x: Ref)
    requires s.Wf() && t.Wf() && (forall z :: z in t.intact ==> Untouched(s, t, z)) && t.dying == {}
    requires a in t.intact && Reach(t.graph, a, x)
    ensures Reach(s.graph, a, x)
  {
    hide State.Wf, Reach;
    var D := set z | z in t.graph && z in s.graph && z in t.intact && Reach(s.graph, a, z);
    IntactCounted(t, a);
    assert Untouched(s, t, a);
    ReachSelf(s.graph, a);
    forall z, w | z in D && w in t.graph && Edge(t.graph, z, w) ensures w in D {
      HeldIntact(t, z, w);
      assert Untouched(s, t, z) && Untouched(s, t, w);
      ReachEdge(s.graph, z, w);
      ReachTrans(s.graph, a, z, w);
    }
    ReachClosed(t.graph, D, a, x);
  }

  /** Destruction hides nothing. */
  lemma StillHidden(s: State, t: State)
    requires s.Wf() && t.Wf() && (forall z :: z in t.intact ==> Untouched(s, t, z)) && t.dying == {}
    requires s.held.hidden == multiset{}
    ensures t.held.hidden == multiset{}
  {
    hide State.Wf, Tally;
    HeldSum(s);
    HeldSum(t);
    WfKeys(t);
    forall x | x in t.graph ensures t.graph[x] == NoRefs() || (x in s.graph && t.graph[x] == s.graph[x]) {
      if x in t.intact {
        assert Untouched(s, t, x);
      } else {
        DeadIsEmpty(t, x);
        NoMembers(t, x);
      }
    }
    TallyLess(s.graph, t.graph, s.graph.Keys, t.graph.Keys);
  }
}
