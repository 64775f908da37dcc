// First pass of the cycle collector: mark everything the candidates reach and
// count the references found on the way.

module Marking {
  import opened Values
  import opened RefGraph
  import opened HeapState
  import opened Objects

  /** The part of the heap the pass works on. */
  datatype MarkState = MarkState(
    marked: set<Ref>, scan: multiset<Ref>, unreferred: set<Ref>, isolated: set<Ref>)

  /** What visiting the references `visits` from `a` does to arrive at `b`: newly
      objects are marked, each with everything it refers to; every reference found
      adds one to the trial count of its target; and an object so found leaves
      whatever list it was on. */
  ghost predicate Visited(g: Graph, a: MarkState, b: MarkState, visits: multiset<Ref>) {
    var newly := b.marked - a.marked;
    && a.marked <= b.marked && newly <= g.Keys
    && b.scan == a.scan + visits + Tally(g, newly).scanned
    && (forall x :: x in visits ==> x in b.marked)
    && (forall x, y :: x in newly && Edge(g, x, y) ==> y in b.marked)
    && (forall x :: x in newly ==> b.scan[x] > a.scan[x])
    && (forall x :: x in newly ==> exists v :: v in visits && Reach(g, v, x))
    && b.unreferred == (set x | x in a.unreferred && b.scan[x] == a.scan[x])
    && b.isolated == (set x | x in a.isolated && b.scan[x] == a.scan[x])
  }

  lemma VisitedNothing(g: Graph, a: MarkState)
    ensures Visited(g, a, a, multiset{})
  {
    assert a.marked - a.marked == {};
  }

  lemma VisitedTrans(g: Graph, a: MarkState, b: MarkState, c: MarkState, v: multiset<Ref>, w: multiset<Ref>)
    requires Visited(g, a, b, v) && Visited(g, b, c, w)
    ensures Visited(g, a, c, v + w)
  {
    hide Reach, Tally, Edge;
    var f1, f2 := b.marked - a.marked, c.marked - b.marked;
    assert c.marked - a.marked == f1 + f2;
    TallyUnion(g, f1, f2);
    assert c.scan == a.scan + (v + w) + Tally(g, f1 + f2).scanned;
    forall x | x in f1 + f2 ensures exists u :: u in v + w && Reach(g, u, x) {
      if x in f1 {
        var u :| u in v && Reach(g, u, x);
        assert u in v + w;
      } else {
        var u :| u in w && Reach(g, u, x);
        assert u in v + w;
      }
    }
  }

  /** `o` is touched and was marked already. */
  lemma VisitedAgain(g: Graph, a: MarkState, b: MarkState, o: Ref)
    requires o in a.marked
    requires b == MarkState(a.marked, a.scan + multiset{o}, a.unreferred - {o}, a.isolated - {o})
    ensures Visited(g, a, b, multiset{o})
  {
    assert b.marked - a.marked == {};
  }

  /** `o` is touched, marked, and then everything it holds is visited. */
  lemma VisitedFresh(g: Graph, a: MarkState, b: MarkState, c: MarkState, o: Ref)
    requires o in g && o !in a.marked
    requires b == MarkState(a.marked + {o}, a.scan + multiset{o}, a.unreferred - {o}, a.isolated - {o})
    requires Visited(g, b, c, g[o].scanned) && forall x :: x in g[o].scanned ==> x in g
    ensures Visited(g, a, c, multiset{o})
  {
    hide Reach, Tally;
    var newly, later := c.marked - a.marked, c.marked - b.marked;
    assert newly == later + {o};
    TallyTake(g, newly, o);
    assert newly - {o} == later;
    assert c.scan == a.scan + multiset{o} + Tally(g, newly).scanned;
    ReachSelf(g, o);
    forall x | x in newly ensures exists v :: v in multiset{o} && Reach(g, v, x) {
      if x != o {
        var v :| v in g[o].scanned && Reach(g, v, x);
        ReachEdge(g, o, v);
        ReachTrans(g, o, v, x);
      }
      assert o in multiset{o} && Reach(g, o, x);
    }
  }

  // ---- the pass -------------------------------------------------------------

  function Ones(mark: multiset<Ref>): (s: set<Ref>) {
    set o | o in mark && mark[o] == 1
  }

  ghost function At(h: Heap): MarkState
    reads h
  {
    MarkState(Ones(h.mark), h.scanCount, h.unreferred, h.isolated)
  }

  ghost predicate Known(g: Graph, refs: multiset<Ref>) {
    forall x :: x in refs ==> x in g
  }

  /** What the pass needs of the heap, none of which it changes. */
  ghost predicate Ready(members: map<Ref, seq<Member>>, g: Graph) {
    && members.Keys == g.Keys
    && forall x, ms | x in g && ms == members[x] :: g[x] == Holds(ms) && Known(g, g[x].scanned)
  }

  /** `di_scan_type` on an object, with `di_collect_garbage_mark`. */
  method MarkObject(h: Heap, o: Ref)
    requires Ready(h.members, h.graph) && o in h.graph
    modifies h`mark, h`scanCount, h`unreferred, h`isolated
    ensures Visited(h.graph, old(At(h)), At(h), multiset{o}) && Ones(old(h.mark)) <= Ones(h.mark)
    ensures forall x :: h.mark[x] != 1 ==> h.mark[x] == old(h.mark)[x]
    decreases h.graph.Keys - Ones(h.mark), 0
  {
    hide Visited;
    ghost var a := At(h);
    h.unreferred, h.isolated := h.unreferred - {o}, h.isolated - {o};
    h.scanCount := h.scanCount[o := h.scanCount[o] + 1];
    assert h.scanCount == a.scan + multiset{o};
    if h.mark[o] == 1 {
      VisitedAgain(h.graph, a, At(h), o);
      return;
    }
    h.mark := h.mark[o := 1];
    ghost var b := At(h);
    assert b.marked == a.marked + {o};
    assert Holds(h.members[o]) == h.graph[o];
    MarkAll(h, Data(h.members[o]));
    VisitedFresh(h.graph, a, b, At(h), o);
  }

  /** `di_scan_type` on a value. */
  method MarkValue(h: Heap, v: Value)
    requires Ready(h.members, h.graph) && Known(h.graph, RefsOf(v).scanned)
    modifies h`mark, h`scanCount, h`unreferred, h`isolated
    ensures Visited(h.graph, old(At(h)), At(h), RefsOf(v).scanned) && Ones(old(h.mark)) <= Ones(h.mark)
    ensures forall x :: h.mark[x] != 1 ==> h.mark[x] == old(h.mark)[x]
    decreases h.graph.Keys - Ones(h.mark), 1, v, 0
  {
    hide Visited, Ready;
    match v
    case Object(o) => MarkObject(h, o);
    case Array(elems) => MarkAll(h, elems);
    case Tuple(elems) => MarkAll(h, elems);
    case Variant(inner) => MarkValue(h, inner);
    case _ => VisitedNothing(h.graph, At(h));
  }

  method MarkAll(h: Heap, vs: seq<Value>)
    requires Ready(h.members, h.graph) && Known(h.graph, RefsOfAll(vs).scanned)
    modifies h`mark, h`scanCount, h`unreferred, h`isolated
    ensures Visited(h.graph, old(At(h)), At(h), RefsOfAll(vs).scanned) && Ones(old(h.mark)) <= Ones(h.mark)
    ensures forall x :: h.mark[x] != 1 ==> h.mark[x] == old(h.mark)[x]
    decreases h.graph.Keys - Ones(h.mark), 1, vs, 1
  {
    hide Visited, Ready, RefsOf, RefsOfAll;
    ghost var a := At(h);
    ghost var done: multiset<Ref> := multiset{};
    VisitedNothing(h.graph, a);
    RefsOfRest(vs, 0);
    var i := 0;
    while i < |vs|
      invariant 0 <= i <= |vs|
      invariant done + RefsOfAll(vs[i..]).scanned == RefsOfAll(vs).scanned
      invariant Visited(h.graph, a, At(h), done) && a.marked <= Ones(h.mark)
      invariant forall x :: h.mark[x] != 1 ==> h.mark[x] == old(h.mark)[x]
    {
      ghost var b := At(h);
      RefsOfRest(vs, i);
      MarkValue(h, vs[i]);
      VisitedTrans(h.graph, a, b, At(h), done, RefsOf(vs[i]).scanned);
      done := done + RefsOf(vs[i]).scanned;
      i := i + 1;
    }
    RefsOfRest(vs, |vs|);
    assert done == RefsOfAll(vs).scanned;
  }

  // ---- all candidates ---------------------------------------------------------

  /** What holds between `start`, where nothing is marked, and the moment `b` between
      two candidates.  Isolated roots may reach each other, but whoever refers to
      an isolated root directly is reached by it. */
  ghost predicate RootsMarked(g: Graph, start: MarkState, b: MarkState) {
    && b.marked <= g.Keys && start.unreferred <= g.Keys && Closed(g, b.marked)
    && b.scan == start.scan + Tally(g, b.marked).scanned
    && b.unreferred <= start.unreferred <= b.unreferred + b.marked && b.unreferred !! b.marked
    && b.isolated <= b.marked * start.unreferred
    && (forall x :: x in b.marked ==> ReachFrom(g, b.isolated, x))
    && (forall x, r :: x in b.marked && r in b.isolated && Edge(g, x, r) ==> Reach(g, r, x))
  }

  /** The candidate `i` is visited and becomes an isolated root; the visit itself is no
      reference. */
  ghost predicate VisitedRoot(g: Graph, b: MarkState, d: MarkState, i: Ref) {
    && Visited(g, b, MarkState(d.marked, d.scan + multiset{i}, d.unreferred, d.isolated - {i}), multiset{i})
    && i in d.isolated
  }

  lemma RootVisited(g: Graph, b: MarkState, c: MarkState, d: MarkState, i: Ref)
    requires Visited(g, b, c, multiset{i})
    requires d == MarkState(c.marked, c.scan - multiset{i}, c.unreferred, c.isolated + {i})
    ensures VisitedRoot(g, b, d, i)
  {
    hide Tally, Reach;
    assert c.scan[i] > b.scan[i];
    assert d.scan + multiset{i} == c.scan && d.isolated - {i} == c.isolated;
  }

  lemma NextRoot(g: Graph, start: MarkState, b: MarkState, d: MarkState, i: Ref)
    requires RootsMarked(g, start, b) && i in b.unreferred && VisitedRoot(g, b, d, i)
    ensures RootsMarked(g, start, d) && d.unreferred < b.unreferred
  {
    hide Reach, Tally, Edge, ReachFrom;
    var c := MarkState(d.marked, d.scan + multiset{i}, d.unreferred, d.isolated - {i});
    assert d == MarkState(c.marked, c.scan - multiset{i}, c.unreferred, c.isolated + {i});
    NextRootCounts(g, start, b, c, d, i);
    forall x | x in d.marked ensures ReachFrom(g, d.isolated, x) {
      NextRootReaches(g, b, c, i, x);
    }
    forall x, r | x in d.marked && r in d.isolated && Edge(g, x, r) ensures Reach(g, r, x) {
      NextRootReached(g, b, c, i, x, r);
    }
  }

  lemma NextRootCounts(g: Graph, start: MarkState, b: MarkState, c: MarkState, d: MarkState, i: Ref)
    requires RootsMarked(g, start, b) && i in b.unreferred && Visited(g, b, c, multiset{i})
    requires d == MarkState(c.marked, c.scan - multiset{i}, c.unreferred, c.isolated + {i})
    ensures d.marked <= g.Keys && Closed(g, d.marked)
    ensures d.scan == start.scan + Tally(g, d.marked).scanned
    ensures d.unreferred <= start.unreferred <= d.unreferred + d.marked && d.unreferred !! d.marked
    ensures d.isolated <= d.marked * start.unreferred
  {
    hide Reach, Tally, Edge, ReachFrom;
    var newly := c.marked - b.marked;
    assert c.marked == b.marked + newly;
    TallyUnion(g, b.marked, newly);
    forall x | x in b.unreferred && c.scan[x] != b.scan[x] ensures x in c.marked {
      if x != i {
        TallyIn(g, newly, x);
        var h :| h in newly && x in g[h].scanned;
        TouchedEdge(g, h, x);
      }
    }
  }

  lemma TouchedEdge(g: Graph, h: Ref, x: Ref)
    requires h in g && x in g[h].scanned
    ensures x in g ==> Edge(g, h, x)
  {
  }

  lemma NextRootReached(g: Graph, b: MarkState, c: MarkState, i: Ref, x: Ref, r: Ref)
    requires Closed(g, b.marked) && i !in b.marked && b.isolated <= b.marked
    requires forall x, r :: x in b.marked && r in b.isolated && Edge(g, x, r) ==> Reach(g, r, x)
    requires Visited(g, b, c, multiset{i}) && x in c.marked && r in c.isolated + {i} && Edge(g, x, r)
    ensures Reach(g, r, x)
  {
    hide Reach, Tally;
    var newly := c.marked - b.marked;
    if x in newly {
      assert exists v :: v in multiset{i} && Reach(g, v, x);
      TallyIn(g, newly, r);
    }
  }

  lemma NextRootReaches(g: Graph, b: MarkState, c: MarkState, i: Ref, x: Ref)
    requires x in b.marked ==> ReachFrom(g, b.isolated, x)
    requires Visited(g, b, c, multiset{i}) && x in c.marked
    ensures ReachFrom(g, c.isolated + {i}, x)
  {
    hide Reach, Tally;
    var newly := c.marked - b.marked;
    if x in b.marked {
      var r :| r in b.isolated && Reach(g, r, x);
      ReachIn(g, r, x);
      if r !in c.isolated && r != i {
        TallyIn(g, newly, r);
        var h :| h in newly && r in g[h].scanned;
        assert exists v :: v in multiset{i} && Reach(g, v, h);
        ReachEdge(g, h, r);
        ReachTrans(g, i, h, r);
        ReachTrans(g, i, r, x);
        assert i in c.isolated + {i} && Reach(g, i, x);
      }
    } else {
      assert x in newly;
      assert exists v :: v in multiset{i} && Reach(g, v, x);
    }
  }

  // ---- isolated roots that reach each other ---------------------------------------

  function One(o: Ref): Refs { Refs(multiset{o}, multiset{}, multiset{}) }

  /** `a` and `c` refer to each other, and `b` to `c`. */
  function Triangle(a: Ref, b: Ref, c: Ref): Graph {
    map[a := One(c), b := One(c), c := One(a)]
  }

  /** With the candidates taken in the order `a`, `b`, both end up as isolated roots
      although `b` reaches `a`: the visit of `b` stops at `c`. */
  lemma RootsReachEachOther(a: Ref, b: Ref, c: Ref, d0: MarkState, d1: MarkState, d2: MarkState)
    requires a != b && b != c && c != a && d0 == MarkState({}, multiset{}, {a, b}, {})
    requires VisitedRoot(Triangle(a, b, c), d0, d1, a) && VisitedRoot(Triangle(a, b, c), d1, d2, b)
    ensures d2.isolated == {a, b} && d2.unreferred == {} && Reach(Triangle(a, b, c), b, a)
  {
    hide Tally, Reach;
    var g := Triangle(a, b, c);
    FirstRoot(a, b, c, d0, d1);
    SecondRoot(a, b, c, d1, d2);
    assert Edge(g, b, c) && Edge(g, c, a);
    ReachEdge(g, b, c);
    ReachEdge(g, c, a);
    ReachTrans(g, b, c, a);
  }

  lemma FirstRoot(a: Ref, b: Ref, c: Ref, d0: MarkState, d1: MarkState)
    requires a != b && b != c && c != a && d0 == MarkState({}, multiset{}, {a, b}, {})
    requires VisitedRoot(Triangle(a, b, c), d0, d1, a)
    ensures d1.marked == {a, c} && d1.unreferred == {b} && d1.isolated == {a}
  {
    hide Tally, Reach;
    var g := Triangle(a, b, c);
    assert Edge(g, a, c);
    forall x | x in d1.marked ensures x in {a, c} {
      assert x in d1.marked - d0.marked;
      assert exists v :: v in multiset{a} && Reach(g, v, x);
      ReachClosed(g, {a, c}, a, x);
    }
    assert d1.marked - d0.marked == {a, c};
    TallyIn(g, {a, c}, b);
    assert (d1.scan + multiset{a})[b] == 0;
    assert d1.isolated == (d1.isolated - {a}) + {a};
  }

  lemma SecondRoot(a: Ref, b: Ref, c: Ref, d1: MarkState, d2: MarkState)
    requires a != b && b != c && c != a
    requires d1.marked == {a, c} && d1.unreferred == {b} && d1.isolated == {a}
    requires VisitedRoot(Triangle(a, b, c), d1, d2, b)
    ensures d2.isolated == {a, b} && d2.unreferred == {}
  {
    hide Tally, Reach;
    var g := Triangle(a, b, c);
    assert d2.marked - d1.marked == {b};
    TallyIn(g, {b}, a);
    var scan := d2.scan + multiset{b};
    assert scan[a] == d1.scan[a];
    assert scan[b] > d1.scan[b];
    assert a in d2.isolated - {b};
    assert d2.isolated == (d2.isolated - {b}) + {b};
  }
}
