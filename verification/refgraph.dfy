// The reference graph: who holds how many references to whom.

module RefGraph {
  import opened Values

  type Graph = map<Ref, Refs>

  // ---- counting references --------------------------------------------------

  /** All references held by the members of the objects in `S`. */
  ghost function Tally(g: Graph, S: set<Ref>): Refs
    requires S <= g.Keys
  {
    if S == {} then NoRefs() else
      var x :| x in S;
      g[x].Plus(Tally(g, S - {x}))
  }

  lemma {:induction false} TallyTake(g: Graph, S: set<Ref>, x: Ref)
    requires x in S && S <= g.Keys
    ensures Tally(g, S) == g[x].Plus(Tally(g, S - {x}))
  {
    var y :| y in S && Tally(g, S) == g[y].Plus(Tally(g, S - {y}));
    if y != x {
      TallyTake(g, S - {y}, x);
      TallyTake(g, S - {x}, y);
      assert S - {x} - {y} == S - {y} - {x};
      PlusLaws(g[x], g[y], Tally(g, S - {x} - {y}));
    }
  }

  lemma {:induction false} TallySame(g: Graph, h: Graph, S: set<Ref>)
    requires S <= g.Keys && S <= h.Keys
    requires forall x | x in S :: g[x] == h[x]
    ensures Tally(g, S) == Tally(h, S)
  {
    if S != {} {
      var x :| x in S;
      TallyTake(g, S, x);
      TallyTake(h, S, x);
      TallySame(g, h, S - {x});
    }
  }

  lemma {:induction false} TallyUnion(g: Graph, A: set<Ref>, B: set<Ref>)
    requires A !! B && A <= g.Keys && B <= g.Keys
    ensures Tally(g, A + B) == Tally(g, A).Plus(Tally(g, B))
  {
    if A == {} {
      assert A + B == B;
      PlusLaws(Tally(g, B), NoRefs(), NoRefs());
    } else {
      var x :| x in A;
      TallyTake(g, A, x);
      TallyTake(g, A + B, x);
      TallyUnion(g, A - {x}, B);
      assert A + B - {x} == (A - {x}) + B;
      PlusLaws(g[x], Tally(g, A - {x}), Tally(g, B));
    }
  }

  /** Replacing what one object holds changes the total by just that. */
  lemma TallyUpdate(g: Graph, S: set<Ref>, x: Ref, r: Refs, taken: Refs)
    requires x in S && S <= g.Keys && g[x] == taken.Plus(r)
    ensures Tally(g, S) == taken.Plus(Tally(g[x := r], S))
  {
    TallyTake(g, S, x);
    TallyTake(g[x := r], S, x);
    TallySame(g, g[x := r], S - {x});
    PlusLaws(taken, r, Tally(g, S - {x}));
  }

  /** A reference is counted exactly when somebody holds it. */
  lemma {:induction false} TallyIn(g: Graph, S: set<Ref>, y: Ref)
    requires S <= g.Keys
    ensures y in Tally(g, S).scanned <==> exists x :: x in S && y in g[x].scanned
    ensures y in Tally(g, S).hidden <==> exists x :: x in S && y in g[x].hidden
    ensures y in Tally(g, S).weak <==> exists x :: x in S && y in g[x].weak
  {
    if S != {} {
      var x :| x in S;
      TallyTake(g, S, x);
      TallyIn(g, S - {x}, y);
    }
  }

  /** Fewer holders hold no more. */
  lemma {:induction false} TallyLess(g: Graph, h: Graph, A: set<Ref>, B: set<Ref>)
    requires A <= g.Keys && B <= h.Keys
    requires forall x :: x in B ==> h[x] == NoRefs() || (x in A && h[x] == g[x])
    ensures Tally(h, B).scanned <= Tally(g, A).scanned && Tally(h, B).hidden <= Tally(g, A).hidden
  {
    if B != {} {
      var x :| x in B;
      TallyTake(h, B, x);
      if h[x] == NoRefs() {
        TallyLess(g, h, A, B - {x});
      } else {
        TallyTake(g, A, x);
        TallyLess(g, h, A - {x}, B - {x});
      }
    }
  }

  // ---- reachability ---------------------------------------------------------

  /** The collector's edges: `x` holds a scanned strong reference to `y`. */
  ghost predicate Edge(g: Graph, x: Ref, y: Ref) {
    x in g && y in g && y in g[x].scanned
  }

  ghost predicate IsPath(g: Graph, p: seq<Ref>) {
    && |p| > 0
    && (forall i :: 0 <= i < |p| ==> p[i] in g)
    && forall i :: 0 <= i < |p| - 1 ==> Edge(g, p[i], p[i + 1])
  }

  ghost predicate Reach(g: Graph, x: Ref, y: Ref) {
    exists p :: IsPath(g, p) && p[0] == x && p[|p| - 1] == y
  }

  ghost predicate ReachFrom(g: Graph, A: set<Ref>, y: Ref) {
    exists x :: x in A && Reach(g, x, y)
  }

  ghost predicate Closed(g: Graph, C: set<Ref>) {
    forall x, y :: x in C && y in g && Edge(g, x, y) ==> y in C
  }

  lemma ReachSelf(g: Graph, x: Ref)
    requires x in g
    ensures Reach(g, x, x)
  {
    assert IsPath(g, [x]);
  }

  lemma ReachEdge(g: Graph, x: Ref, y: Ref)
    requires Edge(g, x, y)
    ensures Reach(g, x, y)
  {
    assert IsPath(g, [x, y]);
  }

  lemma ReachIn(g: Graph, x: Ref, y: Ref)
    requires Reach(g, x, y)
    ensures x in g && y in g
  {
  }

  lemma ReachTrans(g: Graph, x: Ref, y: Ref, z: Ref)
    requires Reach(g, x, y) && Reach(g, y, z)
    ensures Reach(g, x, z)
  {
    var p :| IsPath(g, p) && p[0] == x && p[|p| - 1] == y;
    var q :| IsPath(g, q) && q[0] == y && q[|q| - 1] == z;
    var r := p + q[1..];
    forall i | 0 <= i < |r| - 1 ensures Edge(g, r[i], r[i + 1]) {
      if i < |p| - 1 {
        assert Edge(g, p[i], p[i + 1]);
      } else {
        assert r[i] == q[i - |p| + 1];
        assert Edge(g, q[i - |p| + 1], q[i - |p| + 2]);
      }
    }
    assert IsPath(g, r);
  }

  /** A closed set cannot be left. */
  lemma ReachClosed(g: Graph, C: set<Ref>, x: Ref, y: Ref)
    requires Closed(g, C) && x in C && Reach(g, x, y)
    ensures y in C
  {
    var p :| IsPath(g, p) && p[0] == x && p[|p| - 1] == y;
    PathClosed(g, C, p, |p| - 1);
  }

  lemma {:induction false} PathClosed(g: Graph, C: set<Ref>, p: seq<Ref>, i: nat)
    requires Closed(g, C) && IsPath(g, p) && p[0] in C && i < |p|
    ensures p[i] in C
  {
    if i > 0 {
      PathClosed(g, C, p, i - 1);
      assert Edge(g, p[i - 1], p[i]);
    }
  }
}
