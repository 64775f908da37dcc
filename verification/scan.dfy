// Second pass of the cycle collector: condemn what only marked objects refer to,
// and save again everything a still-needed object reaches.

module Scanning {
  import opened Values
  import opened RefGraph
  import opened HeapState
  import opened Objects
  import opened Marking

  /** The marked objects by what the pass has decided so far. */
  datatype ScanState = ScanState(white: set<Ref>, condemned: set<Ref>, saved: set<Ref>)

  /** The marked objects that have references the mark pass did not find. */
  ghost function Needed(M: set<Ref>, trial: multiset<Ref>, refCount: multiset<Ref>): set<Ref> {
    set x | x in M && trial[x] != refCount[x]
  }

  /** What scanning the references `visits` from `a` does to arrive at `b`. */
  ghost predicate Scanned(g: Graph, needed: set<Ref>, a: ScanState, b: ScanState, visits: multiset<Ref>, revive: bool) {
    && b.white <= a.white && a.saved <= b.saved
    && b.white + b.condemned + b.saved == a.white + a.condemned + a.saved
    && b.white !! b.condemned && b.white !! b.saved && b.condemned !! b.saved
    && b.condemned <= a.condemned + (a.white - b.white)
    && (forall x :: x in visits ==> x !in b.white && (revive ==> x in b.saved))
    && (forall x, y :: x in b.saved - a.saved && Edge(g, x, y) ==> y in b.saved)
    && (forall x, y :: x in b.condemned - a.condemned && Edge(g, x, y) ==> y !in b.white)
    && (forall x :: x in b.saved - a.saved ==> ReachFrom(g, needed, x))
    && needed !! b.condemned - a.condemned
  }

  lemma ScannedTrans(g: Graph, needed: set<Ref>, a: ScanState, b: ScanState, c: ScanState,
                     v: multiset<Ref>, w: multiset<Ref>, revive: bool)
    requires Scanned(g, needed, a, b, v, revive) && Scanned(g, needed, b, c, w, revive)
    ensures Scanned(g, needed, a, c, v + w, revive)
  {
    hide Edge, ReachFrom;
  }

  ghost predicate Disjoint(a: ScanState) {
    a.white !! a.condemned && a.white !! a.saved && a.condemned !! a.saved
  }

  lemma ScannedNothing(g: Graph, needed: set<Ref>, a: ScanState, visits: multiset<Ref>, revive: bool)
    requires Disjoint(a) && forall x :: x in visits ==> x !in a.white && (revive ==> x in a.saved)
    ensures Scanned(g, needed, a, a, visits, revive)
  {
  }

  /** `o` is saved, then everything it holds. */
  lemma ScannedSave(g: Graph, needed: set<Ref>, a: ScanState, c: ScanState, o: Ref, revive: bool)
    requires Disjoint(a) && o in a.white + a.condemned && o in g && ReachFrom(g, needed, o)
    requires Scanned(g, needed, ScanState(a.white - {o}, a.condemned - {o}, a.saved + {o}), c, g[o].scanned, true)
    ensures Scanned(g, needed, a, c, multiset{o}, revive)
  {
    hide ReachFrom;
    forall x, y | x in c.saved - a.saved && Edge(g, x, y) ensures y in c.saved {
      assert x == o ==> y in g[o].scanned;
    }
  }

  /** `o` is condemned, then everything it holds is scanned. */
  lemma ScannedCondemn(g: Graph, needed: set<Ref>, a: ScanState, c: ScanState, o: Ref)
    requires Disjoint(a) && o in a.white && o in g && o !in needed
    requires Scanned(g, needed, ScanState(a.white - {o}, a.condemned + {o}, a.saved), c, g[o].scanned, false)
    ensures Scanned(g, needed, a, c, multiset{o}, false)
  {
    hide ReachFrom;
    forall x, y | x in c.condemned - a.condemned && Edge(g, x, y) ensures y !in c.white {
      assert x == o ==> y in g[o].scanned;
    }
  }

  // ---- the pass -------------------------------------------------------------

  function With(M: set<Ref>, mark: multiset<Ref>, m: nat): set<Ref> {
    set x | x in M && mark[x] == m
  }

  ghost function Sorted(M: set<Ref>, mark: multiset<Ref>): ScanState {
    ScanState(With(M, mark, 1), With(M, mark, 2), With(M, mark, 0))
  }

  /** The marked objects `M` with their trial counts, in the midst of the pass. */
  ghost predicate Trial(g: Graph, M: set<Ref>, trial: multiset<Ref>, refCount: multiset<Ref>,
                        mark: multiset<Ref>, scan: multiset<Ref>) {
    && M <= g.Keys && Closed(g, M)
    && forall x :: x in M ==> 
        && mark[x] <= 2 && scan[x] == (if mark[x] == 0 then 0 else trial[x])
        && trial[x] <= refCount[x] && refCount[x] > 0
  }

  ghost predicate ReachAll(g: Graph, needed: set<Ref>, refs: multiset<Ref>) {
    forall x :: x in refs ==> ReachFrom(g, needed, x)
  }

  ghost predicate Among(refs: multiset<Ref>, M: set<Ref>) {
    forall x :: x in refs ==> x in M
  }

  lemma Children(members: map<Ref, seq<Member>>, g: Graph, M: set<Ref>, needed: set<Ref>, o: Ref)
    requires Ready(members, g) && M <= g.Keys && Closed(g, M) && o in M
    ensures o in members && RefsOfAll(Data(members[o])) == g[o] && Among(g[o].scanned, M)
    ensures ReachFrom(g, needed, o) ==> ReachAll(g, needed, g[o].scanned)
  {
    hide Reach;
    assert g[o] == Holds(members[o]);
    forall x | x in g[o].scanned ensures x in M {
      assert Edge(g, o, x);
    }
    if ReachFrom(g, needed, o) {
      var n :| n in needed && Reach(g, n, o);
      forall x | x in g[o].scanned ensures ReachFrom(g, needed, x) {
        ReachEdge(g, o, x);
        ReachTrans(g, n, o, x);
      }
    }
  }

  lemma NeededSelf(g: Graph, M: set<Ref>, trial: multiset<Ref>, refCount: multiset<Ref>, o: Ref)
    requires o in M && o in g
    ensures o in Needed(M, trial, refCount) <==> trial[o] != refCount[o]
    ensures o in Needed(M, trial, refCount) ==> ReachFrom(g, Needed(M, trial, refCount), o)
  {
    ReachSelf(g, o);
  }

  /** An object that gets mark 0 or 2 changes its set. */
  lemma SortedMoved(M: set<Ref>, mark: multiset<Ref>, o: Ref)
    requires o in M
    ensures Disjoint(Sorted(M, mark)) && forall m :: o in With(M, mark, m) <==> mark[o] == m
    ensures var a := Sorted(M, mark);
      && Sorted(M, mark[o := 0]) == ScanState(a.white - {o}, a.condemned - {o}, a.saved + {o})
      && (mark[o] == 1 ==> Sorted(M, mark[o := 2]) == ScanState(a.white - {o}, a.condemned + {o}, a.saved))
  {
  }

  /** `di_scan_type` on an object, with `di_collect_garbage_scan`. */
  method ScanObject(h: Heap, o: Ref, revive: bool, ghost M: set<Ref>, ghost trial: multiset<Ref>)
    requires Ready(h.members, h.graph) && o in M
    requires Trial(h.graph, M, trial, h.refCount, h.mark, h.scanCount)
    requires revive ==> ReachFrom(h.graph, Needed(M, trial, h.refCount), o)
    modifies h`mark, h`scanCount
    ensures Trial(h.graph, M, trial, h.refCount, h.mark, h.scanCount)
    ensures Scanned(h.graph, Needed(M, trial, h.refCount), old(Sorted(M, h.mark)), Sorted(M, h.mark), multiset{o},
      revive)
    ensures forall x :: x !in M ==> h.mark[x] == old(h.mark)[x] && h.scanCount[x] == old(h.scanCount)[x]
    decreases With(M, h.mark, 1), With(M, h.mark, 2), 0
  {
    hide Scanned, Ready, Closed, ReachFrom, Needed, RefsOfAll, With, Disjoint;
    ghost var a := Sorted(M, h.mark);
    ghost var needed := Needed(M, trial, h.refCount);
    SortedMoved(M, h.mark, o);
    Children(h.members, h.graph, M, needed, o);
    assert h.scanCount[o] <= h.refCount[o];
    if revive || h.scanCount[o] != h.refCount[o] {
      if h.mark[o] == 0 {
        ScannedNothing(h.graph, needed, a, multiset{o}, revive);
        return;
      }
      h.scanCount := h.scanCount[o := 0];
      h.mark := h.mark[o := 0];
      NeededSelf(h.graph, M, trial, h.refCount, o);
      ScanAll(h, Data(h.members[o]), true, M, trial);
      ScannedSave(h.graph, needed, a, Sorted(M, h.mark), o, revive);
    } else {
      if h.mark[o] == 2 || h.mark[o] == 0 {
        ScannedNothing(h.graph, needed, a, multiset{o}, revive);
        return;
      }
      h.mark := h.mark[o := 2];
      NeededSelf(h.graph, M, trial, h.refCount, o);
      ScanAll(h, Data(h.members[o]), false, M, trial);
      ScannedCondemn(h.graph, needed, a, Sorted(M, h.mark), o);
    }
  }

  /** `di_scan_type` on a value. */
  method ScanValue(h: Heap, v: Value, revive: bool, ghost M: set<Ref>, ghost trial: multiset<Ref>)
    requires Ready(h.members, h.graph) && Among(RefsOf(v).scanned, M)
    requires Trial(h.graph, M, trial, h.refCount, h.mark, h.scanCount)
    requires revive ==> ReachAll(h.graph, Needed(M, trial, h.refCount), RefsOf(v).scanned)
    modifies h`mark, h`scanCount
    ensures Trial(h.graph, M, trial, h.refCount, h.mark, h.scanCount)
    ensures Scanned(h.graph, Needed(M, trial, h.refCount), old(Sorted(M, h.mark)), Sorted(M, h.mark),
      RefsOf(v).scanned, revive)
    ensures forall x :: x !in M ==> h.mark[x] == old(h.mark)[x] && h.scanCount[x] == old(h.scanCount)[x]
    decreases With(M, h.mark, 1), With(M, h.mark, 2), 1, v, 0
  {
    hide Scanned, Ready, Trial;
    match v
    case Object(o) => ScanObject(h, o, revive, M, trial);
    case Array(elems) => ScanAll(h, elems, revive, M, trial);
    case Tuple(elems) => ScanAll(h, elems, revive, M, trial);
    case Variant(inner) => ScanValue(h, inner, revive, M, trial);
    case _ => ScannedNothing(h.graph, Needed(M, trial, h.refCount), Sorted(M, h.mark), multiset{}, revive);
  }

  method ScanAll(h: Heap, vs: seq<Value>, revive: bool, ghost M: set<Ref>, ghost trial: multiset<Ref>)
    requires Ready(h.members, h.graph) && Among(RefsOfAll(vs).scanned, M)
    requires Trial(h.graph, M, trial, h.refCount, h.mark, h.scanCount)
    requires revive ==> ReachAll(h.graph, Needed(M, trial, h.refCount), RefsOfAll(vs).scanned)
    modifies h`mark, h`scanCount
    ensures Trial(h.graph, M, trial, h.refCount, h.mark, h.scanCount)
    ensures Scanned(h.graph, Needed(M, trial, h.refCount), old(Sorted(M, h.mark)), Sorted(M, h.mark),
      RefsOfAll(vs).scanned, revive)
    ensures forall x :: x !in M ==> h.mark[x] == old(h.mark)[x] && h.scanCount[x] == old(h.scanCount)[x]
    decreases With(M, h.mark, 1), With(M, h.mark, 2), 1, vs, 1
  {
    hide Scanned, Ready, Trial, RefsOf, RefsOfAll, ReachFrom;
    ghost var a := Sorted(M, h.mark);
    ghost var needed := Needed(M, trial, h.refCount);
    ghost var done: multiset<Ref> := multiset{};
    ScannedNothing(h.graph, needed, a, done, revive);
    RefsOfRest(vs, 0);
    var i := 0;
    while i < |vs|
      invariant 0 <= i <= |vs|
      invariant done + RefsOfAll(vs[i..]).scanned == RefsOfAll(vs).scanned
      invariant Trial(h.graph, M, trial, h.refCount, h.mark, h.scanCount)
      invariant Scanned(h.graph, needed, a, Sorted(M, h.mark), done, revive)
      invariant forall x :: x !in M ==> h.mark[x] == old(h.mark)[x] && h.scanCount[x] == old(h.scanCount)[x]
      invariant With(M, h.mark, 1) <= a.white
      invariant With(M, h.mark, 2) <= a.condemned + (a.white - With(M, h.mark, 1))
    {
      ghost var b := Sorted(M, h.mark);
      RefsOfRest(vs, i);
      ScanValue(h, vs[i], revive, M, trial);
      ScannedTrans(h.graph, needed, a, b, Sorted(M, h.mark), done, RefsOf(vs[i]).scanned, revive);
      ScannedShrinks(h.graph, needed, a, Sorted(M, h.mark), done + RefsOf(vs[i]).scanned, revive);
      done := done + RefsOf(vs[i]).scanned;
      i := i + 1;
    }
    RefsOfRest(vs, |vs|);
    assert done == RefsOfAll(vs).scanned;
  }

  lemma ScannedShrinks(g: Graph, needed: set<Ref>, a: ScanState, b: ScanState, visits: multiset<Ref>, revive: bool)
    requires Scanned(g, needed, a, b, visits, revive)
    ensures b.white <= a.white && b.condemned <= a.condemned + (a.white - b.white)
  {
  }

  // ---- the verdict ------------------------------------------------------------

  /** Once all roots are scanned, exactly those marked objects are condemned that no
      needed object reaches. */
  lemma Verdict(g: Graph, M: set<Ref>, needed: set<Ref>, roots: set<Ref>, b: ScanState)
    requires M <= g.Keys && Closed(g, M) && needed <= M && roots <= M
    requires forall x :: x in M ==> ReachFrom(g, roots, x)
    requires Scanned(g, needed, ScanState(M, {}, {}), b, multiset(roots), false)
    ensures b.white == {} && b.condemned + b.saved == M && b.condemned !! b.saved
    ensures forall x :: x in M ==> (x in b.condemned <==> !ReachFrom(g, needed, x))
  {
    hide Reach;
    var seen := b.condemned + b.saved;
    assert Closed(g, seen);
    assert Closed(g, b.saved);
    forall x | x in M ensures x in seen {
      var r :| r in roots && Reach(g, r, x);
      assert r in multiset(roots);
      ReachClosed(g, seen, r, x);
    }
    forall x | x in M && ReachFrom(g, needed, x) ensures x in b.saved {
      var n :| n in needed && Reach(g, n, x);
      ReachClosed(g, b.saved, n, x);
    }
  }
}
