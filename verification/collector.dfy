// The cycle collector: rounds of marking, scanning and finalising until no
// candidate is left.

module Collector {
  import opened Values
  import opened RefGraph
  import opened HeapState
  import opened Objects
  import opened Marking
  import opened Scanning
  import opened Reaping
  import opened Tracking

  /** The state between collections. */
  ghost predicate Idle(h: Heap)
    reads h
  {
    && h.St().Wf() && h.dying == {} && h.isolated == {}
    && (forall x :: x in h.intact ==> h.mark[x] == 0 && h.scanCount[x] == 0)
    && (forall x :: h.mark[x] != 1)
  }

  // ---- marking all candidates ---------------------------------------------------

  lemma IdleReady(h: Heap)
    requires Idle(h)
    ensures Ready(h.members, h.graph) && h.intact <= h.graph.Keys && Closed(h.graph, h.intact)
    ensures RootsMarked(h.graph, At(h), At(h))
    ensures h.unreferred <= h.intact && forall x :: x in h.unreferred ==> h.mark[x] == 0
  {
    var s := h.St();
    forall x, y | x in s.graph && y in s.graph[x].scanned ensures y in s.intact && y in s.graph {
      HeldIntact(s, x, y);
    }
    assert Ones(h.mark) == {};
    forall x | x in s.intact ensures x in s.graph {
      IntactCounted(s, x);
    }
  }

  lemma RootFacts(g: Graph, start: MarkState, b: MarkState, i: Ref)
    requires RootsMarked(g, start, b) && i in b.unreferred
    ensures i in g && i in start.unreferred && i !in b.marked
  {
  }

  lemma VisitCounted(g: Graph, b: MarkState, c: MarkState, i: Ref)
    requires Visited(g, b, c, multiset{i})
    ensures c.scan[i] > 0
  {
  }

  /** One candidate in the first loop of `di_collect_garbage`. */
  method MarkRoot(h: Heap, i: Ref)
    requires Ready(h.members, h.graph) && i in h.graph
    modifies h`mark, h`scanCount, h`unreferred, h`isolated
    ensures VisitedRoot(h.graph, old(At(h)), At(h), i)
    ensures forall x :: h.mark[x] != 1 ==> h.mark[x] == old(h.mark)[x]
  {
    hide Visited, VisitedRoot;
    ghost var b := At(h);
    MarkObject(h, i);
    ghost var c := At(h);
    VisitCounted(h.graph, b, c, i);
    h.scanCount := h.scanCount[i := h.scanCount[i] - 1];
    h.isolated := h.isolated + {i};
    RootVisited(h.graph, b, c, At(h), i);
  }

  method MarkRoots(h: Heap)
    requires Idle(h)
    modifies h`mark, h`scanCount, h`unreferred, h`isolated
    ensures RootsMarked(h.graph, old(At(h)), At(h)) && h.unreferred == {}
    ensures forall x :: h.mark[x] != 1 ==> h.mark[x] == old(h.mark)[x]
  {
    hide RootsMarked, VisitedRoot, State.Wf;
    ghost var start, g := At(h), h.graph;
    IdleReady(h);
    while h.unreferred != {}
      invariant Ready(h.members, h.graph) && RootsMarked(g, start, At(h))
      invariant forall x :: h.mark[x] != 1 ==> h.mark[x] == old(h.mark)[x]
      decreases h.unreferred
    {
      var i :| i in h.unreferred;
      ghost var b := At(h);
      RootFacts(g, start, b, i);
      assert h.mark[i] == 0;
      MarkRoot(h, i);
      NextRoot(g, start, b, At(h), i);
    }
  }

  /** The two candidates of `Triangle`, `a` first. */
  method MarkTriangle(h: Heap, a: Ref, b: Ref, c: Ref)
    requires a != b && b != c && c != a && Ready(h.members, h.graph) && h.graph == Triangle(a, b, c)
    requires Ones(h.mark) == {} && h.scanCount == multiset{} && h.unreferred == {a, b} && h.isolated == {}
    modifies h`mark, h`scanCount, h`unreferred, h`isolated
    ensures h.isolated == {a, b} && h.unreferred == {} && Reach(h.graph, b, a)
  {
    hide VisitedRoot, Reach;
    ghost var d0 := At(h);
    MarkRoot(h, a);
    ghost var d1 := At(h);
    MarkRoot(h, b);
    RootsReachEachOther(a, b, c, d0, d1, At(h));
  }

  // ---- scanning all isolated roots ------------------------------------------------

  method ScanRoots(h: Heap, ghost M: set<Ref>, ghost trial: multiset<Ref>)
    requires Ready(h.members, h.graph) && h.isolated <= M
    requires Trial(h.graph, M, trial, h.refCount, h.mark, h.scanCount)
    requires Sorted(M, h.mark) == ScanState(M, {}, {})
    modifies h`mark, h`scanCount
    ensures Trial(h.graph, M, trial, h.refCount, h.mark, h.scanCount)
    ensures Scanned(h.graph, Needed(M, trial, h.refCount), ScanState(M, {}, {}), Sorted(M, h.mark),
      multiset(h.isolated), false)
    ensures forall x :: x !in M ==> h.mark[x] == old(h.mark)[x] && h.scanCount[x] == old(h.scanCount)[x]
  {
    hide Scanned, Ready, Trial, Needed;
    ghost var needed := Needed(M, trial, h.refCount);
    ghost var seen: multiset<Ref> := multiset{};
    ScannedNothing(h.graph, needed, Sorted(M, h.mark), seen, false);
    var rest := h.isolated;
    while rest != {}
      invariant rest <= h.isolated && seen + multiset(rest) == multiset(h.isolated)
      invariant Trial(h.graph, M, trial, h.refCount, h.mark, h.scanCount)
      invariant Scanned(h.graph, needed, ScanState(M, {}, {}), Sorted(M, h.mark), seen, false)
      invariant forall x :: x !in M ==> h.mark[x] == old(h.mark)[x] && h.scanCount[x] == old(h.scanCount)[x]
      decreases rest
    {
      var i :| i in rest;
      ghost var b := Sorted(M, h.mark);
      ScanObject(h, i, false, M, trial);
      ScannedTrans(h.graph, needed, ScanState(M, {}, {}), b, Sorted(M, h.mark), seen, multiset{i}, false);
      rest := rest - {i};
      seen := seen + multiset{i};
    }
    assert seen == multiset(h.isolated);
  }

  /** Take the revived objects off the list of roots. */
  method DropRevived(h: Heap)
    modifies h`isolated
    ensures h.isolated == (set i | i in old(h.isolated) && h.mark[i] == 2)
  {
    var rest := h.isolated;
    while rest != {}
      invariant rest <= h.isolated <= old(h.isolated)
      invariant forall i :: i in old(h.isolated) - rest ==> (i in h.isolated <==> h.mark[i] == 2)
      invariant forall i :: i in rest ==> i in h.isolated
      decreases rest
    {
      var i :| i in rest;
      rest := rest - {i};
      if h.mark[i] != 2 {
        h.isolated := h.isolated - {i};
      }
    }
  }

  // ---- finalising from all condemned roots ------------------------------------------

  /** After a root's pass every root still listed is still pending. */
  lemma RootsPending(s0: State, s: State, C: set<Ref>, p: Sets)
    requires Condemned(s0, C) && Phase(s0, s, C, p) && p.pinned == {}
    ensures s.isolated <= p.pending
  {
    hide State.Wf, Tally, Sealed, Reach, ReachFrom;
    forall r | r in s.isolated ensures r in p.pending {
      if r in p.done {
        RootGone(s0, s, C, p, r);
        IsolatedIntact(s, r);
      }
    }
  }

  lemma IsolatedIntact(s: State, r: Ref)
    requires s.Wf() && r in s.isolated
    ensures r in s.refCount && r in s.intact
  {
  }

  /** What a finalised object reaches is not pending. */
  lemma DoneClosed(s0: State, s: State, C: set<Ref>, p: Sets, r: Ref, x: Ref)
    requires Condemned(s0, C) && Phase(s0, s, C, p) && p.pinned == {}
    requires r in p.done && Reach(s0.graph, r, x)
    ensures x !in p.pending
  {
    hide State.Wf, Tally, Reach, ReachFrom;
    var D := s0.graph.Keys - p.pending;
    forall y, z | y in D && z in s0.graph && Edge(s0.graph, y, z) ensures z in D {
      assert y !in C ==> s0.graph[y].Strong() !! multiset(C);
      assert z in s0.graph[y].Strong() && (z in multiset(C) <==> z in C);
    }
    ReachClosed(s0.graph, D, r, x);
  }

  lemma RootGone(s0: State, s: State, C: set<Ref>, p: Sets, r: Ref)
    requires Condemned(s0, C) && Phase(s0, s, C, p) && p.pinned == {} && r in p.done && r in s0.isolated
    ensures r !in s.refCount
  {
    hide State.Wf, Tally, Sealed, Reach, ReachFrom;
    TallyUnion(s0.graph, p.done, p.pending);
    assert p.done + p.pending == C;
    TallyIn(s0.graph, p.pending, r);
    forall x | x in p.pending ensures r !in s0.graph[x].scanned {
      if r in s0.graph[x].scanned {
        assert Edge(s0.graph, x, r);
        DoneClosed(s0, s, C, p, r, x);
      }
    }
  }

  method ReapRoots(h: Heap, ghost C: set<Ref>)
    requires Condemned(h.St(), C)
    modifies h
    ensures Phase(old(h.St()), h.St(), C, Sets({}, {}, C)) && h.intact !! C && h.isolated == {}
    ensures h.scanCount == old(h.scanCount) && (old(h.isolated) == {} ==> h.St() == old(h.St()))
  {
    hide State.Wf, Condemned, Phase;
    ghost var s0 := h.St();
    ghost var p := Sets(C, {}, {});
    PhaseStart(s0, C);
    while h.isolated != {}
      invariant Phase(s0, h.St(), C, p) && p.pinned == {} && h.isolated <= p.pending
      invariant h.scanCount == old(h.scanCount) && (s0.isolated == {} ==> h.St() == s0)
      decreases p.pending
    {
      var i :| i in h.isolated;
      PendingIntact(s0, h.St(), C, p, i);
      ghost var q := ReapObject(h, i, s0, C, p);
      RootsPending(s0, h.St(), C, q);
      p := q;
    }
    NothingPending(s0, h.St(), C, p);
  }

  lemma NoTally(g: Graph)
    ensures Tally(g, {}) == NoRefs()
  {
  }

  lemma PhaseStart(s0: State, C: set<Ref>)
    requires Condemned(s0, C)
    ensures Phase(s0, s0, C, Sets(C, {}, {})) && s0.isolated <= C
  {
    hide State.Wf, Sealed, Reach, ReachFrom, Tally;
    assert Tally(s0.graph, {}) == NoRefs() by { NoTally(s0.graph); }
    assert NoRefs().Strong() == multiset{};
    WfKeys(s0);
    forall x | x in s0.intact ensures Untouched(s0, s0, x) {
      IntactCounted(s0, x);
    }
    AloofSelf(s0, C);
  }

  lemma AloofSelf(s: State, C: set<Ref>)
    ensures Aloof(s, s, C) && NewlyListed(s, s, C)
  {
    hide Sealed;
    assert NoRefs().Strong() == multiset{};
  }

  lemma PendingIntact(s0: State, s: State, C: set<Ref>, p: Sets, i: Ref)
    requires Phase(s0, s, C, p) && i in p.pending
    ensures i in s.intact && i in s0.intact
  {
    assert Untouched(s0, s, i);
  }

  lemma NothingPending(s0: State, s: State, C: set<Ref>, p: Sets)
    requires Condemned(s0, C) && Phase(s0, s, C, p) && p.pinned == {} && s.isolated == {}
    ensures p == Sets({}, {}, C) && s.intact !! C
  {
    hide State.Wf, Tally, Sealed, Reach, ReachFrom;
    forall x | x in C ensures x in p.done {
      ReachedDone(s0, s, C, p, x);
    }
    assert p.pending == {};
    forall x | x in C ensures x !in s.intact {
      Unheld(s0, s, C, p, x);
    }
  }

  lemma ReachedDone(s0: State, s: State, C: set<Ref>, p: Sets, x: Ref)
    requires Condemned(s0, C) && Phase(s0, s, C, p) && p.pinned == {} && s.isolated == {} && x in C
    ensures x in p.done
  {
    hide State.Wf, Tally, Sealed, Reach;
    var r :| r in s0.isolated && Reach(s0.graph, r, x);
    if r in p.done {
      DoneClosed(s0, s, C, p, r, x);
    } else {
      PendingIntact(s0, s, C, p, r);
    }
  }

  lemma Unheld(s0: State, s: State, C: set<Ref>, p: Sets, x: Ref)
    requires Condemned(s0, C) && Phase(s0, s, C, p) && p == Sets({}, {}, C) && x in C
    ensures x !in s.intact
  {
    hide State.Wf, Tally, Sealed, Reach, ReachFrom;
    if x in s.intact {
      IntactCounted(s, x);
    }
  }

  // ---- one round ------------------------------------------------------------------

  /** Objects with a reference that no object reachable from a candidate holds for the
      collector to see. */
  ghost function HeldElsewhere(s: State): set<Ref> {
    set x | x in s.intact && HeldApart(s, x)
  }

  ghost predicate HeldApart(s: State, x: Ref) {
    || x in s.outside || x in s.held.hidden
    || exists h :: h in s.graph && !ReachFrom(s.graph, s.unreferred, h) && x in s.graph[h].scanned
  }

  /** What one round does: it destroys the objects `C` that a candidate reaches and
      nothing held elsewhere reaches; a set of others that nobody else refers to loses
      nothing, and the new candidates are objects that lost a reference. */
  ghost predicate Round(s: State, t: State, C: set<Ref>) {
    && Garbage(s, C) && t.intact !! C
    && Spared(s, t)
    && Aloof(s, t, C) && (forall x :: x in t.unreferred ==> t.refCount[x] < s.refCount[x])
    && (C == {} ==> t.unreferred == {})
  }

  /** Survivors keep their members, and one that lost a reference is a candidate. */
  ghost predicate Spared(s: State, t: State) {
    && t.Wf() && t.outside == s.outside && t.weakOutside == s.weakOutside && t.intact <= s.intact
    && forall x :: x in t.intact ==>
         Untouched(s, t, x) && (t.refCount[x] < s.refCount[x] ==> x in t.unreferred)
  }

  /** The marked objects are the ones the candidates reach. */
  lemma MarkedReached(g: Graph, start: MarkState, b: MarkState, x: Ref)
    requires RootsMarked(g, start, b) && b.unreferred == {}
    ensures x in b.marked <==> ReachFrom(g, start.unreferred, x)
  {
    hide Reach, Tally;
    if x in b.marked {
      var r :| r in b.isolated && Reach(g, r, x);
      assert r in start.unreferred;
    }
    if ReachFrom(g, start.unreferred, x) {
      var r :| r in start.unreferred && Reach(g, r, x);
      ReachClosed(g, b.marked, r, x);
    }
  }

  /** Needed marked objects are the ones held elsewhere. */
  lemma NeededElsewhere(s: State, M: set<Ref>, x: Ref)
    requires s.Wf() && M <= s.graph.Keys && M <= s.intact && x in M
    requires forall h :: h in M <==> ReachFrom(s.graph, s.unreferred, h)
    ensures x in Needed(M, Tally(s.graph, M).scanned, s.refCount) <==> HeldApart(s, x)
    ensures Tally(s.graph, M).scanned[x] <= s.refCount[x]
  {
    hide ReachFrom, Tally;
    TallyUnion(s.graph, M, s.graph.Keys - M);
    assert M + (s.graph.Keys - M) == s.graph.Keys;
    assert s.held == Tally(s.graph, s.graph.Keys);
    TallyIn(s.graph, s.graph.Keys - M, x);
    assert (exists h :: h in s.graph.Keys - M && x in s.graph[h].scanned) <==>
           (exists h :: h in s.graph && !ReachFrom(s.graph, s.unreferred, h) && x in s.graph[h].scanned);
    assert s.refCount[x] == s.outside[x] + s.held.scanned[x] + s.held.hidden[x];
  }

  /** For marked objects, being reached by a needed object and being reached by
      anything held elsewhere are the same. */
  lemma NeededReach(s: State, M: set<Ref>, x: Ref)
    requires s.Wf() && M <= s.graph.Keys && M <= s.intact && x in M && Closed(s.graph, M)
    requires forall h :: h in M <==> ReachFrom(s.graph, s.unreferred, h)
    ensures ReachFrom(s.graph, Needed(M, Tally(s.graph, M).scanned, s.refCount), x)
        <==> ReachFrom(s.graph, HeldElsewhere(s), x)
  {
    hide State.Wf, Tally, Reach, HeldApart, Needed;
    var needed := Needed(M, Tally(s.graph, M).scanned, s.refCount);
    if ReachFrom(s.graph, needed, x) {
      var n :| n in needed && Reach(s.graph, n, x);
      NeededIn(M, Tally(s.graph, M).scanned, s.refCount, n);
      NeededElsewhere(s, M, n);
      assert n in HeldElsewhere(s);
    }
    if ReachFrom(s.graph, HeldElsewhere(s), x) {
      var n :| n in HeldElsewhere(s) && Reach(s.graph, n, x);
      var D := set z | z in s.graph && (z in M ==> ReachFrom(s.graph, needed, z));
      forall z, w | z in D && w in s.graph && Edge(s.graph, z, w) ensures w in D {
        if w in M {
          EntersNeeded(s, M, needed, z, w);
        }
      }
      ReachIn(s.graph, n, x);
      if n in M {
        NeededElsewhere(s, M, n);
        ReachSelf(s.graph, n);
      }
      assert n in D;
      ReachClosed(s.graph, D, n, x);
    }
  }

  lemma NeededIn(M: set<Ref>, trial: multiset<Ref>, refCount: multiset<Ref>, n: Ref)
    ensures n in Needed(M, trial, refCount) ==> n in M
  {
  }

  lemma EntersNeeded(s: State, M: set<Ref>, needed: set<Ref>, z: Ref, w: Ref)
    requires s.Wf() && M <= s.graph.Keys && M <= s.intact && w in M && Edge(s.graph, z, w)
    requires forall h :: h in M <==> ReachFrom(s.graph, s.unreferred, h)
    requires needed == Needed(M, Tally(s.graph, M).scanned, s.refCount)
    requires z in M ==> ReachFrom(s.graph, needed, z)
    ensures ReachFrom(s.graph, needed, w)
  {
    hide State.Wf, Tally, Reach, Needed;
    if z in M {
      var n :| n in needed && Reach(s.graph, n, z);
      ReachEdge(s.graph, z, w);
      ReachTrans(s.graph, n, z, w);
    } else {
      assert HeldApart(s, w);
      NeededElsewhere(s, M, w);
      ReachSelf(s.graph, w);
    }
  }

  /** The heap after marking, in the terms of the scan pass. */
  lemma AfterMark(s: State, start: MarkState, b: MarkState, mark: multiset<Ref>)
    requires s.Wf() && forall x :: x in s.intact ==> s.mark[x] == 0 && start.scan[x] == 0
    requires RootsMarked(s.graph, start, b) && b.unreferred == {}
    requires start.unreferred == s.unreferred && b.marked == Ones(mark)
    requires forall x :: mark[x] != 1 ==> mark[x] == s.mark[x]
    ensures b.marked <= s.intact && b.isolated <= b.marked && Closed(s.graph, b.marked)
    ensures Trial(s.graph, b.marked, Tally(s.graph, b.marked).scanned, s.refCount, mark, b.scan)
    ensures Sorted(b.marked, mark) == ScanState(b.marked, {}, {})
    ensures forall x :: x in s.intact && x !in b.marked ==> mark[x] == 0 && b.scan[x] == 0
    ensures forall x :: x in b.marked <==> ReachFrom(s.graph, s.unreferred, x)
  {
    hide State.Wf, Tally, Reach, ReachFrom;
    var M := b.marked;
    WfKeys(s);
    forall x ensures x in M <==> ReachFrom(s.graph, s.unreferred, x) {
      MarkedReached(s.graph, start, b, x);
    }
    forall x | x in M ensures x in s.intact {
      CandidateIntact(s, x);
    }
    forall x | x in M ensures Tally(s.graph, M).scanned[x] <= s.refCount[x] && x in s.refCount {
      NeededElsewhere(s, M, x);
      IntactCounted(s, x);
    }
    forall x | x in s.intact && x !in M ensures Tally(s.graph, M).scanned[x] == 0 {
      TallyIn(s.graph, M, x);
      IntactCounted(s, x);
      assert forall h :: h in M && x in s.graph[h].scanned ==> Edge(s.graph, h, x);
    }
  }

  /** Whatever an intact object reaches is intact. */
  lemma CandidateIntact(s: State, x: Ref)
    requires s.Wf() && ReachFrom(s.graph, s.unreferred, x)
    ensures x in s.intact
  {
    hide Reach, Tally, Holds;
    var r :| r in s.unreferred && Reach(s.graph, r, x);
    forall y, z | y in s.intact && z in s.graph && Edge(s.graph, y, z) ensures z in s.intact {
      HeldIntact(s, y, z);
    }
    ReachClosed(s.graph, s.intact, r, x);
  }

  /** Nothing outside the condemned objects refers to them. */
  lemma VerdictSealed(s: State, M: set<Ref>, b: ScanState, isolated: set<Ref>)
    requires s.Wf() && M <= s.intact && M <= s.graph.Keys && Closed(s.graph, M)
    requires forall h :: h in M <==> ReachFrom(s.graph, s.unreferred, h)
    requires Scanned(s.graph, Needed(M, Tally(s.graph, M).scanned, s.refCount), ScanState(M, {}, {}), b,
      multiset(isolated), false)
    requires b.white == {} && b.condemned + b.saved == M
    ensures Sealed(s.graph, b.condemned)
    ensures forall x :: x in b.condemned ==> x !in s.outside && x !in s.held.hidden
  {
    hide State.Wf, Tally, Reach, ReachFrom, Needed;
    forall x | x in b.condemned ensures !HeldApart(s, x) {
      NeededElsewhere(s, M, x);
    }
    forall y | y in s.graph && y !in b.condemned ensures s.graph[y].Strong() !! multiset(b.condemned) {
      forall x | x in b.condemned ensures x !in s.graph[y].Strong() {
        HiddenHeld(s, y);
        assert x in s.graph[y].scanned && y in M ==> Edge(s.graph, y, x);
      }
    }
  }

  lemma HiddenHeld(s: State, y: Ref)
    requires s.Wf() && y in s.graph
    ensures s.graph[y].hidden <= s.held.hidden && s.graph[y].scanned <= s.held.scanned
  {
    hide Tally;
    assert s.held == Tally(s.graph, s.graph.Keys);
    TallyTake(s.graph, s.graph.Keys, y);
  }

  /** All references to condemned objects are held by condemned objects. */
  lemma CondemnedCounts(s: State, C: set<Ref>, x: Ref)
    requires s.Wf() && C <= s.graph.Keys && Sealed(s.graph, C) && x in C
    requires x !in s.outside && x !in s.held.hidden
    ensures s.refCount[x] == Tally(s.graph, C).Strong()[x] && Tally(s.graph, C).hidden[x] == 0
  {
    hide Tally;
    TallyUnion(s.graph, C, s.graph.Keys - C);
    assert C + (s.graph.Keys - C) == s.graph.Keys;
    assert s.held == Tally(s.graph, s.graph.Keys);
    TallyIn(s.graph, s.graph.Keys - C, x);
    forall h | h in s.graph.Keys - C ensures x !in s.graph[h].scanned {
      assert s.graph[h].Strong() !! multiset(C) && x in multiset(C);
    }
    assert s.refCount[x] == s.outside[x] + s.held.scanned[x] + s.held.hidden[x];
  }

  lemma Relisted(s: State, t: State)
    requires s.Wf() && t == s.(mark := t.mark, unreferred := {}, isolated := t.isolated) && t.isolated <= s.intact
    ensures t.Wf()
  {
  }

  /** Everything the finalising pass asks for. */
  lemma ToCondemned(s: State, t: State, M: set<Ref>, isolated: set<Ref>, b: ScanState)
    requires s.Wf() && s.dying == {} && M <= s.intact && M <= s.graph.Keys && Closed(s.graph, M)
    requires forall h :: h in M <==> ReachFrom(s.graph, s.unreferred, h)
    requires isolated <= M && forall x :: x in M ==> ReachFrom(s.graph, isolated, x)
    requires forall x, r :: x in M && r in isolated && Edge(s.graph, x, r) ==> Reach(s.graph, r, x)
    requires Scanned(s.graph, Needed(M, Tally(s.graph, M).scanned, s.refCount), ScanState(M, {}, {}), b,
      multiset(isolated), false)
    requires b.white == {} && b.condemned + b.saved == M && b.condemned !! b.saved
    requires t == s.(mark := t.mark, unreferred := {}, isolated := isolated * b.condemned)
    requires forall x :: x in s.intact ==> t.mark[x] == if x in b.condemned then 2 else 0
    ensures Condemned(t, b.condemned)
  {
    hide State.Wf, Tally, Reach, ReachFrom, Needed, Sealed, Scanned, Closed;
    Relisted(s, t);
    VerdictSealed(s, M, b, isolated);
    forall x | x in b.condemned
      ensures s.refCount[x] == Tally(s.graph, b.condemned).Strong()[x] && Tally(s.graph, b.condemned).hidden[x] == 0
    {
      CondemnedCounts(s, b.condemned, x);
    }
    forall x | x in b.condemned ensures ReachFrom(s.graph, t.isolated, x) {
      CondemnedReached(s, M, isolated, b, x);
    }
  }

  /** A condemned object is reached from a condemned root. */
  lemma CondemnedReached(s: State, M: set<Ref>, isolated: set<Ref>, b: ScanState, x: Ref)
    requires M <= s.graph.Keys && isolated <= M && ReachFrom(s.graph, isolated, x)
    requires Scanned(s.graph, Needed(M, Tally(s.graph, M).scanned, s.refCount), ScanState(M, {}, {}), b,
      multiset(isolated), false)
    requires b.condemned + b.saved == M && b.condemned !! b.saved && x in b.condemned
    ensures ReachFrom(s.graph, isolated * b.condemned, x)
  {
    hide Tally, Reach, Needed;
    var r :| r in isolated && Reach(s.graph, r, x);
    if r in b.saved {
      assert Closed(s.graph, b.saved);
      ReachClosed(s.graph, b.saved, r, x);
    }
  }

  /** What the first two passes find: the objects to be destroyed. */
  ghost predicate Garbage(s: State, C: set<Ref>) {
    forall x :: x in C <==>
      x in s.intact && ReachFrom(s.graph, s.unreferred, x) && !ReachFrom(s.graph, HeldElsewhere(s), x)
  }

  /** The candidates' fate decided: marking, scanning, and dropping the revived roots. */
  method Condemn(h: Heap) returns (ghost C: set<Ref>)
    requires Idle(h)
    modifies h`mark, h`scanCount, h`unreferred, h`isolated
    ensures Condemned(h.St(), C) && Garbage(old(h.St()), C) && h.unreferred == {}
    ensures forall x :: x in h.intact && x !in C ==> h.scanCount[x] == 0
    ensures forall x :: h.mark[x] != 1
  {
    hide State.Wf, RootsMarked, Scanned, Trial, Ready, Condemned, Closed, Garbage, Reach, ReachFrom, Tally, Needed,
      Ones, Sorted;
    ghost var s, start, g := h.St(), At(h), h.graph;
    MarkRoots(h);
    ghost var b := At(h);
    MarkedFrom(g, start, b);
    ghost var M, trial := b.marked, Tally(g, b.marked).scanned;
    AfterMark(s, start, b, h.mark);
    OnesFacts(h.mark);
    StateReady(s);
    ScanRoots(h, M, trial);
    C := With(M, h.mark, 2);
    TrialMarks(h.graph, M, trial, h.refCount, h.mark, h.scanCount);
    DropRevived(h);
    Decided(s, start, b, h.St(), h.scanCount);
  }

  lemma TrialMarks(g: Graph, M: set<Ref>, trial: multiset<Ref>, rc: multiset<Ref>, mark: multiset<Ref>,
      scan: multiset<Ref>)
    requires Trial(g, M, trial, rc, mark, scan)
    ensures forall x :: x in M ==> mark[x] <= 2 && (mark[x] == 0 ==> scan[x] == 0)
  {
  }

  lemma OnesFacts(mark: multiset<Ref>)
    ensures forall x :: x !in Ones(mark) ==> mark[x] != 1
  {
  }

  /** The verdict, as the finalising pass needs it. */
  lemma Decided(s: State, start: MarkState, b: MarkState, t: State, scan: multiset<Ref>)
    requires s.Wf() && s.dying == {} && RootsMarked(s.graph, start, b) && b.unreferred == {}
    requires b.marked <= s.intact && b.isolated <= b.marked && Closed(s.graph, b.marked) && b.marked <= s.graph.Keys
    requires forall h :: h in b.marked <==> ReachFrom(s.graph, s.unreferred, h)
    requires Scanned(s.graph, Needed(b.marked, Tally(s.graph, b.marked).scanned, s.refCount),
      ScanState(b.marked, {}, {}),
                     Sorted(b.marked, t.mark), multiset(b.isolated), false)
    requires forall x :: x in b.marked ==> t.mark[x] <= 2 && (t.mark[x] == 0 ==> scan[x] == 0)
    requires t == s.(mark := t.mark, unreferred := {}, isolated := t.isolated)
    requires t.isolated == set i | i in b.isolated && t.mark[i] == 2
    requires forall x :: x in s.intact && x !in b.marked ==> t.mark[x] == 0
    ensures Condemned(t, With(b.marked, t.mark, 2)) && Garbage(s, With(b.marked, t.mark, 2))
    ensures forall x :: x in b.marked ==> t.mark[x] != 1
    ensures forall x :: x in b.marked && x !in With(b.marked, t.mark, 2) ==> scan[x] == 0
  {
    hide State.Wf, RootsMarked, Scanned, Condemned, Closed, Garbage, Reach, ReachFrom, Tally, Needed, Trial, With;
    var M, v := b.marked, Sorted(b.marked, t.mark);
    MarkedFrom(s.graph, start, b);
    DecidedVerdict(s, M, b.isolated, v);
    MarksDecided(s, b, t, scan);
    ToCondemned(s, t, M, b.isolated, v);
  }

  lemma DecidedVerdict(s: State, M: set<Ref>, isolated: set<Ref>, v: ScanState)
    requires s.Wf() && M <= s.intact && M <= s.graph.Keys && Closed(s.graph, M)
    requires forall h :: h in M <==> ReachFrom(s.graph, s.unreferred, h)
    requires isolated <= M && forall x :: x in M ==> ReachFrom(s.graph, isolated, x)
    requires Scanned(s.graph, Needed(M, Tally(s.graph, M).scanned, s.refCount), ScanState(M, {}, {}), v,
      multiset(isolated), false)
    ensures v.white == {} && v.condemned + v.saved == M && v.condemned !! v.saved && Garbage(s, v.condemned)
  {
    hide State.Wf, Scanned, Closed, Garbage, Reach, ReachFrom, Tally, Needed;
    NeededAmong(M, Tally(s.graph, M).scanned, s.refCount);
    Verdict(s.graph, M, Needed(M, Tally(s.graph, M).scanned, s.refCount), isolated, v);
    GarbageFound(s, M, v.condemned);
  }

  lemma MarksDecided(s: State, b: MarkState, t: State, scan: multiset<Ref>)
    requires b.isolated <= b.marked <= s.intact && With(b.marked, t.mark, 1) == {}
    requires forall x :: x in b.marked ==> t.mark[x] <= 2 && (t.mark[x] == 0 ==> scan[x] == 0)
    requires t.isolated == set i | i in b.isolated && t.mark[i] == 2
    requires forall x :: x in s.intact && x !in b.marked ==> t.mark[x] == 0
    ensures t.isolated == b.isolated * With(b.marked, t.mark, 2)
    ensures forall x :: x in b.marked ==> t.mark[x] != 1 && (x !in With(b.marked, t.mark, 2) ==> scan[x] == 0)
    ensures forall x :: x in s.intact ==> t.mark[x] == if x in With(b.marked, t.mark, 2) then 2 else 0
  {
    forall x | x in b.marked ensures t.mark[x] != 1 {
      assert x !in With(b.marked, t.mark, 1);
    }
  }

  lemma NeededAmong(M: set<Ref>, trial: multiset<Ref>, refCount: multiset<Ref>)
    ensures Needed(M, trial, refCount) <= M
  {
  }

  lemma GarbageFound(s: State, M: set<Ref>, C: set<Ref>)
    requires s.Wf() && M <= s.graph.Keys && M <= s.intact && Closed(s.graph, M)
    requires forall h :: h in M <==> ReachFrom(s.graph, s.unreferred, h)
    requires C <= M
    requires forall x :: x in M ==> (x in C <==>
      !ReachFrom(s.graph, Needed(M, Tally(s.graph, M).scanned, s.refCount), x))
    ensures Garbage(s, C)
  {
    hide State.Wf, Tally, Reach, ReachFrom, Needed, Closed;
    forall x ensures x in C <==>
      x in s.intact && ReachFrom(s.graph, s.unreferred, x) && !ReachFrom(s.graph, HeldElsewhere(s), x)
    {
      if x in M {
        NeededReach(s, M, x);
      }
    }
  }

  /** One round of `di_collect_garbage`. */
  method CollectRound(h: Heap) returns (ghost C: set<Ref>)
    requires Idle(h)
    modifies h
    ensures Idle(h) && Round(old(h.St()), h.St(), C)
    ensures old(h.held).hidden == multiset{} ==> h.intact == old(h.intact) - C
    ensures forall x :: x in old(h.intact) && x !in h.intact ==> ReachFrom(StrongGraph(old(h.graph)), C, x)
  {
    hide State.Wf, Condemned, Ledger, Reach, ReachFrom, Garbage, Spared, Aloof, NewlyListed, Shape, StrongGraph;
    ghost var s := h.St();
    C := Condemn(h);
    ghost var t := h.St();
    CondemnedRoots(t, C);
    ReapRoots(h, C);
    PhaseSets(t, h.St(), C, Sets({}, {}, C));
    FinishRound(s, t, h.St(), C);
    FinishAloof(s, t, h.St(), C);
    FinishIdle(t, h.St(), C);
    RoundLed(s, h.St(), C);
    if s.held.hidden == multiset{} {
      RoundExact(s, h.St(), C);
    }
  }

  lemma CondemnedRoots(s: State, C: set<Ref>)
    requires Condemned(s, C)
    ensures s.isolated <= C
  {
  }

  lemma FinishIdle(t: State, u: State, C: set<Ref>)
    requires Phase(t, u, C, Sets({}, {}, C)) && u.intact !! C
    ensures u.Wf() && u.intact <= t.intact && forall x :: x in u.intact ==> u.mark[x] == 0
    ensures (forall x :: t.mark[x] != 1) ==> forall x :: u.mark[x] != 1
  {
    hide State.Wf, Sealed, Untouched, Tally, Edge;
  }

  /** Marked objects are reached from the isolated roots, and root by root in return. */
  lemma MarkedFrom(g: Graph, start: MarkState, b: MarkState)
    requires RootsMarked(g, start, b)
    ensures b.marked <= g.Keys
    ensures forall x :: x in b.marked ==> ReachFrom(g, b.isolated, x)
    ensures forall x, r :: x in b.marked && r in b.isolated && Edge(g, x, r) ==> Reach(g, r, x)
  {
    hide Reach, Tally;
  }

  lemma StateReady(s: State)
    requires s.Wf()
    ensures Ready(s.members, s.graph)
  {
    forall x, y | x in s.graph && y in s.graph[x].scanned ensures y in s.graph {
      HeldIntact(s, x, y);
      IntactCounted(s, y);
    }
  }

  lemma FinishRound(s: State, t: State, u: State, C: set<Ref>)
    requires t == s.(mark := t.mark, unreferred := {}, isolated := t.isolated)
    requires Phase(t, u, C, Sets({}, {}, C)) && u.intact !! C && t.isolated <= C
    requires t.isolated == {} ==> u == t
    ensures Spared(s, u) && (C == {} ==> u.unreferred == {})
  {
    hide State.Wf, Tally, Sealed, Aloof, NewlyListed;
    forall x | x in u.intact ensures Untouched(s, u, x) && (u.refCount[x] < s.refCount[x] ==> x in u.unreferred) {
      assert Untouched(t, u, x);
    }
  }

  lemma FinishAloof(s: State, t: State, u: State, C: set<Ref>)
    requires t == s.(mark := t.mark, unreferred := {}, isolated := t.isolated)
    requires Phase(t, u, C, Sets({}, {}, C)) && u.intact !! C
    ensures Aloof(s, u, C) && forall x :: x in u.unreferred ==> u.refCount[x] < s.refCount[x]
  {
    hide State.Wf, Tally, Sealed, Shape, Ledger;
    CandidatesIntact(u);
  }

  lemma CandidatesIntact(u: State)
    requires u.Wf()
    ensures u.unreferred <= u.intact
  {
  }

  // ---- what else a round destroys ---------------------------------------------------

  /** Of a set that a round leaves alone nobody dies. */
  lemma AloofIntact(s: State, t: State, C: set<Ref>, D: set<Ref>, x: Ref)
    requires s.Wf() && t.Wf() && Aloof(s, t, C) && Sealed(s.graph, D) && D !! C && x in D && x in s.intact
    ensures x in t.intact
  {
    hide State.Wf, Sealed;
    assert NoRefs().Strong() == multiset{};
    IntactCounted(s, x);
    CountedIntact(t, x);
  }

  /** What does not refer into a set leaves it sealed. */
  lemma SealedUnreached(s: State, g: Graph, A: set<Ref>, D: set<Ref>)
    requires s.Wf() && g.Keys == s.graph.Keys
    requires forall x, y :: x in s.graph && y in s.graph && y in s.graph[x].Strong() ==> Edge(g, x, y)
    requires forall x :: x in D <==> x in g && !ReachFrom(g, A, x)
    ensures Sealed(s.graph, D)
  {
    hide State.Wf, Edge, Reach;
    forall x | x in s.graph && x !in D ensures s.graph[x].Strong() !! multiset(D) {
      var a :| a in A && Reach(g, a, x);
      forall y | y in s.graph[x].Strong() ensures y !in D {
        HeldIntact(s, x, y);
        IntactCounted(s, y);
        ReachEdge(g, x, y);
        ReachTrans(g, a, x, y);
      }
    }
  }

  /** Whoever dies in a round is reached from the condemned by strong references. */
  lemma RoundLed(s: State, t: State, C: set<Ref>)
    requires s.Wf() && Round(s, t, C)
    ensures forall x :: x in s.intact && x !in t.intact ==> ReachFrom(StrongGraph(s.graph), C, x)
  {
    hide State.Wf, Reach, Aloof, Spared, ReachFrom;
    var g := StrongGraph(s.graph);
    var D := set x | x in g && !ReachFrom(g, C, x);
    SealedUnreached(s, g, C, D);
    forall x | x in C ensures x !in D {
      IntactCounted(s, x);
      FromSelf(g, C, x);
    }
    assert t.Wf() by { SparedWf(s, t); }
    forall x | x in s.intact && x !in t.intact ensures ReachFrom(g, C, x) {
      IntactCounted(s, x);
      if x in D {
        AloofIntact(s, t, C, D, x);
      }
    }
  }

  lemma FromSelf(g: Graph, A: set<Ref>, x: Ref)
    requires x in A && x in g
    ensures ReachFrom(g, A, x)
  {
    ReachSelf(g, x);
  }

  lemma SparedWf(s: State, t: State)
    requires Spared(s, t)
    ensures t.Wf() && t.outside == s.outside && forall x :: x in t.intact ==> Untouched(s, t, x)
  {
  }

  /** Where the collector sees all references, a round destroys the condemned and nobody else. */
  lemma RoundExact(s: State, t: State, C: set<Ref>)
    requires s.Wf() && s.dying == {} && Round(s, t, C) && s.held.hidden == multiset{}
    ensures t.intact == s.intact - C
  {
    hide State.Wf, Spared, Aloof, ReachFrom, HeldElsewhere;
    SparedWf(s, t);
    forall x | x in s.intact && x !in C ensures x in t.intact {
      if ReachFrom(s.graph, s.unreferred, x) {
        SavedIntact(s, t, C, x);
      } else {
        UnmarkedIntact(s, t, C, x);
      }
    }
    forall x | x in t.intact ensures x in s.intact {
      SparedIntact(s, t, x);
    }
  }

  lemma UnmarkedIntact(s: State, t: State, C: set<Ref>, x: Ref)
    requires s.Wf() && t.Wf() && Round(s, t, C) && s.held.hidden == multiset{}
    requires x in s.intact && !ReachFrom(s.graph, s.unreferred, x)
    ensures x in t.intact
  {
    hide State.Wf, Spared, Aloof, ReachFrom, HeldElsewhere;
    var D := set z | z in s.graph && !ReachFrom(s.graph, s.unreferred, z);
    forall z, w | z in s.graph && w in s.graph && w in s.graph[z].Strong() ensures Edge(s.graph, z, w) {
      HiddenHeld(s, z);
    }
    SealedUnreached(s, s.graph, s.unreferred, D);
    IntactCounted(s, x);
    AloofIntact(s, t, C, D, x);
  }

  lemma SavedIntact(s: State, t: State, C: set<Ref>, x: Ref)
    requires s.Wf() && s.dying == {} && t.Wf() && Round(s, t, C) && s.held.hidden == multiset{}
    requires x in s.intact && x !in C && ReachFrom(s.graph, s.unreferred, x)
    ensures x in t.intact
  {
    hide State.Wf, Spared, Aloof, Reach, Untouched;
    SparedWf(s, t);
    var h :| h in HeldElsewhere(s) && Reach(s.graph, h, x);
    if h in s.outside {
      Outside(t, h);
    } else {
      var u :| u in s.graph && !ReachFrom(s.graph, s.unreferred, u) && h in s.graph[u].scanned;
      HolderIntact(s, u, h);
      UnmarkedIntact(s, t, C, u);
      StillHeld(s, t, u, h);
    }
    forall z, w | z in t.intact && w in s.graph && Edge(s.graph, z, w) ensures w in t.intact {
      StillHeld(s, t, z, w);
    }
    ReachClosed(s.graph, t.intact, h, x);
  }

  lemma StillHeld(s: State, t: State, z: Ref, w: Ref)
    requires t.Wf() && Untouched(s, t, z) && w in s.graph[z].scanned
    ensures w in t.intact
  {
    hide State.Wf;
    HeldIntact(t, z, w);
  }

  // ---- the whole collection ---------------------------------------------------------

  lemma RoundLoss(s: State, t: State)
    requires s.Wf() && s.dying == {} && t.dying == {} && Spared(s, t)
    ensures Loss(s, t)
  {
  }

  /** Whoever survives a round is reached by an anchor, in the state before it. */
  lemma SurvivorReached(s: State, t: State, C: set<Ref>, x: Ref)
    requires s.Wf() && s.dying == {} && Tracked(s) && Round(s, t, C) && x in t.intact
    ensures ReachFrom(s.graph, Anchors(s), x)
  {
    hide State.Wf, Spared, Reach;
    var g := s.graph;
    assert x in s.intact by { SparedIntact(s, t, x); }
    if ReachFrom(g, s.unreferred, x) {
      var h :| h in HeldElsewhere(s) && Reach(g, h, x);
      if !(h in s.outside || h in s.held.hidden) {
        var u :| u in g && !ReachFrom(g, s.unreferred, u) && h in g[u].scanned;
        HolderIntact(s, u, h);
        ReachFromSum(g, Anchors(s), s.unreferred, u);
        var a :| a in Anchors(s) && Reach(g, a, u);
        ReachIn(g, h, x);
        ReachEdge(g, u, h);
        ReachTrans(g, a, u, h);
        ReachTrans(g, a, h, x);
      }
    } else {
      ReachFromSum(g, Anchors(s), s.unreferred, x);
    }
  }

  lemma SparedIntact(s: State, t: State, x: Ref)
    requires Spared(s, t) && x in t.intact
    ensures x in s.intact
  {
  }

  lemma HolderIntact(s: State, u: Ref, h: Ref)
    requires s.Wf() && u in s.graph && h in s.graph[u].scanned && s.dying == {}
    ensures u in s.intact
  {
    if u !in s.intact {
      DeadIsEmpty(s, u);
      NoMembers(s, u);
    }
  }

  lemma ReachFromSum(g: Graph, A: set<Ref>, B: set<Ref>, x: Ref)
    requires ReachFrom(g, A + B, x)
    ensures ReachFrom(g, A, x) || ReachFrom(g, B, x)
  {
  }

  lemma RoundTracked(s: State, t: State, C: set<Ref>)
    requires s.Wf() && s.dying == {} && t.dying == {} && Tracked(s) && Round(s, t, C)
    ensures Tracked(t)
  {
    hide State.Wf, Reach, ReachFrom, Anchors, Spared, Garbage;
    RoundLoss(s, t);
    forall x | x in t.intact ensures ReachFrom(t.graph, Anchors(t) + t.unreferred, x) {
      SurvivorReached(s, t, C, x);
      forall a | a in Anchors(s) && a in t.intact ensures a in Anchors(t) + t.unreferred {
        AnchorKept(s, t, a);
      }
      StillReached(s, t, Anchors(s), x);
    }
  }

  /** From `s` to `t` objects may have been destroyed, and nothing else has happened. */
  ghost predicate Survived(s: State, t: State) {
    && t.outside == s.outside && t.weakOutside == s.weakOutside && t.intact <= s.intact
    && forall x :: x in t.intact ==> Untouched(s, t, x)
  }

  lemma SurvivedIs(s: State, t: State)
    requires Survived(s, t)
    ensures t.outside == s.outside && t.weakOutside == s.weakOutside && t.intact <= s.intact
    ensures forall x :: x in t.intact ==> x in s.members && x in t.members && t.members[x] == s.members[x]
  {
  }

  lemma RoundSurvived(s0: State, s: State, t: State)
    requires Survived(s0, s) && Spared(s, t)
    ensures Survived(s0, t)
  {
    hide State.Wf;
    forall x | x in t.intact ensures Untouched(s0, t, x) {
      assert Untouched(s, t, x) && Untouched(s0, s, x);
    }
  }

  lemma SurvivedSelf(s: State)
    requires s.Wf()
    ensures Survived(s, s)
  {
    hide State.Wf;
    forall x | x in s.intact ensures Untouched(s, s, x) {
      IntactCounted(s, x);
    }
  }

  lemma RoundShrinks(s: State, t: State, C: set<Ref>)
    requires Round(s, t, C) && s.unreferred != {}
    ensures t.intact < s.intact || (t.intact == s.intact && t.unreferred == {})
  {
    if C == {} {
    } else {
      var x :| x in C;
      assert x in s.intact && x !in t.intact;
    }
  }

  /** Everything an outside reference leads to is left. */
  lemma NothingReachableDies(s: State, t: State)
    requires s.Wf() && t.Wf() && Survived(s, t)
    ensures forall a, x :: a in s.outside && Reach(StrongGraph(s.graph), a, x) ==> x in t.intact
  {
    hide State.Wf, Reach;
    forall a, x | a in s.outside && Reach(StrongGraph(s.graph), a, x) ensures x in t.intact {
      ReachableSurvives(s, t, a, x);
    }
  }

  lemma NothingUnledDies(s: State, t: State)
    requires s.Wf() && t.Wf() && Undisturbed(s, t)
    ensures forall x :: x in s.intact && !ReachFrom(StrongGraph(s.graph), s.unreferred, x) ==> x in t.intact
  {
    hide State.Wf, Reach, ReachFrom, StrongGraph, Undisturbed;
    forall x | x in s.intact && !ReachFrom(StrongGraph(s.graph), s.unreferred, x) ensures x in t.intact {
      UnledSurvives(s, t, x);
    }
  }

  lemma NoGarbageLeft(t: State)
    requires Tracked(t) && t.unreferred == {}
    ensures forall x :: x in t.intact ==> ReachFrom(t.graph, Anchors(t), x)
  {
    hide State.Wf, Reach;
    assert Anchors(t) + {} == Anchors(t);
  }

  /** A set that nobody else refers to and that holds no candidate keeps every count and
      gains no candidate. */
  ghost predicate Undisturbed(s: State, t: State) {
    forall D :: Sealed(s.graph, D) && D !! s.unreferred ==>
      Sealed(t.graph, D) && D !! t.unreferred && Exactly(s, t, NoRefs(), D)
  }

  lemma UndisturbedSelf(s: State)
    ensures Undisturbed(s, s)
  {
    hide Sealed;
    assert NoRefs().Strong() == multiset{};
  }

  lemma UndisturbedTrans(s: State, t: State, u: State)
    requires Undisturbed(s, t) && Undisturbed(t, u)
    ensures Undisturbed(s, u)
  {
    hide Sealed;
    assert NoRefs().Strong() == multiset{};
  }

  /** A round disturbs only what the candidates lead to. */
  lemma RoundUndisturbed(s: State, t: State, C: set<Ref>)
    requires s.Wf() && Round(s, t, C)
    ensures Undisturbed(s, t)
  {
    hide State.Wf, Spared, Sealed, ReachFrom, HeldElsewhere;
    assert NoRefs().Strong() == multiset{};
    forall D | Sealed(s.graph, D) && D !! s.unreferred
      ensures Sealed(t.graph, D) && D !! t.unreferred && Exactly(s, t, NoRefs(), D)
    {
      forall x | x in C ensures x !in D {
        LedOutside(s, D, x);
      }
    }
  }

  lemma LedOutside(s: State, D: set<Ref>, x: Ref)
    requires Sealed(s.graph, D) && D !! s.unreferred && ReachFrom(s.graph, s.unreferred, x)
    ensures x !in D
  {
    hide Reach;
    var a :| a in s.unreferred && Reach(s.graph, a, x);
    var E := s.graph.Keys - D;
    ReachIn(s.graph, a, x);
    forall y, z | y in E && z in s.graph && Edge(s.graph, y, z) ensures z in E {
      assert s.graph[y].Strong() !! multiset(D) && (z in multiset(D) <==> z in D);
    }
    ReachClosed(s.graph, E, a, x);
  }

  /** Garbage or not, what no candidate leads to is left where it is. */
  lemma UnledSurvives(s: State, t: State, x: Ref)
    requires s.Wf() && t.Wf() && Undisturbed(s, t) && x in s.intact
    requires !ReachFrom(StrongGraph(s.graph), s.unreferred, x)
    ensures x in t.intact && t.refCount[x] == s.refCount[x] && x !in t.unreferred
    ensures !ReachFrom(StrongGraph(t.graph), t.unreferred, x)
  {
    hide State.Wf, Reach, ReachFrom, StrongGraph;
    var g := StrongGraph(s.graph);
    StrongKeys(s.graph);
    var D := set z | z in g && !ReachFrom(g, s.unreferred, z);
    SealedUnreached(s, g, s.unreferred, D);
    forall z | z in s.unreferred ensures z !in D {
      if z in g {
        FromSelf(g, s.unreferred, z);
      }
    }
    IntactCounted(s, x);
    SealedSurvives(s, t, D, x);
  }

  lemma StrongKeys(g: Graph)
    ensures StrongGraph(g).Keys == g.Keys
    ensures forall x, y :: x in g && y in g && y in g[x].Strong() ==> Edge(StrongGraph(g), x, y)
    ensures forall x, y :: Edge(StrongGraph(g), x, y) ==> x in g && y in g && y in g[x].Strong()
  {
  }

  lemma SealedSurvives(s: State, t: State, D: set<Ref>, x: Ref)
    requires s.Wf() && t.Wf() && Undisturbed(s, t) && x in s.intact
    requires Sealed(s.graph, D) && D !! s.unreferred && x in D
    ensures x in t.intact && t.refCount[x] == s.refCount[x] && x !in t.unreferred
    ensures !ReachFrom(StrongGraph(t.graph), t.unreferred, x)
  {
    hide State.Wf, Sealed, Reach, StrongGraph, ReachFrom;
    assert NoRefs().Strong() == multiset{};
    IntactCounted(s, x);
    CountedIntact(t, x);
    StillUnled(t, D, x);
  }

  lemma StillUnled(t: State, D: set<Ref>, x: Ref)
    requires Sealed(t.graph, D) && D !! t.unreferred && x in D
    ensures !ReachFrom(StrongGraph(t.graph), t.unreferred, x)
  {
    hide Reach, StrongGraph;
    var g := StrongGraph(t.graph);
    StrongKeys(t.graph);
    if a :| a in t.unreferred && Reach(g, a, x) {
      var E := g.Keys - D;
      ReachIn(g, a, x);
      forall y, z | y in E && z in g && Edge(g, y, z) ensures z in E {
        assert t.graph[y].Strong() !! multiset(D) && (z in multiset(D) <==> z in D);
      }
      ReachClosed(g, E, a, x);
    }
  }

  /** `di_collect_garbage`: whatever an outside reference leads to survives with its
      members, and so does whatever no candidate leads to; if all garbage was tracked,
      nothing else survives. */
  method Collect(h: Heap)
    requires Idle(h)
    modifies h
    ensures Idle(h) && h.unreferred == {} && Survived(old(h.St()), h.St())
    ensures old(h.unreferred) == {} ==> h.St() == old(h.St())
    ensures h.outside == old(h.outside) && h.weakOutside == old(h.weakOutside) && h.intact <= old(h.intact)
    ensures forall x :: x in h.intact ==>
      x in old(h.members) && x in h.members && h.members[x] == old(h.members)[x]
    ensures forall a, x :: a in old(h.outside) && Reach(StrongGraph(old(h.graph)), a, x) ==> x in h.intact
    ensures Undisturbed(old(h.St()), h.St())
    ensures forall x :: x in old(h.intact) && !ReachFrom(StrongGraph(old(h.graph)), old(h.unreferred), x) ==>
      x in h.intact
    ensures Tracked(old(h.St())) ==> Tracked(h.St()) && forall x :: x in h.intact ==>
      ReachFrom(h.graph, Anchors(h.St()), x)
  {
    hide State.Wf, Spared, Survived, Garbage, Tracked, Reach, ReachFrom, Anchors, StrongGraph, Undisturbed, Aloof;
    ghost var s0 := h.St();
    SurvivedSelf(s0);
    UndisturbedSelf(s0);
    while h.unreferred != {}
      invariant Idle(h) && Survived(s0, h.St()) && (s0.unreferred == {} ==> h.St() == s0)
      invariant Undisturbed(s0, h.St())
      invariant Tracked(s0) ==> Tracked(h.St())
      decreases h.intact, h.unreferred
    {
      ghost var s := h.St();
      ghost var C := CollectRound(h);
      RoundSurvived(s0, s, h.St());
      RoundUndisturbed(s, h.St(), C);
      UndisturbedTrans(s0, s, h.St());
      if Tracked(s) {
        RoundTracked(s, h.St(), C);
      }
      RoundShrinks(s, h.St(), C);
    }
    SurvivedIs(s0, h.St());
    NothingReachableDies(s0, h.St());
    NothingUnledDies(s0, h.St());
    if Tracked(s0) {
      NoGarbageLeft(h.St());
    }
  }

  /** Where no member holds a reference hidden from the collector, the two halves
      meet: exactly the objects reached from outside references survive. */
  lemma CollectExact(s: State, t: State, x: Ref)
    requires s.Wf() && t.Wf() && s.dying == {} && t.dying == {} && Survived(s, t) && s.held.hidden == multiset{}
    requires x in s.intact
    requires forall y :: y in t.intact ==> ReachFrom(t.graph, Anchors(t), y)
    ensures x in t.intact <==> exists a :: a in s.outside && Reach(s.graph, a, x)
  {
    hide State.Wf, Reach;
    if a :| a in s.outside && Reach(s.graph, a, x) {
      assert a in t.outside;
      ReachStrong(s.graph, a, x);
      ReachableSurvives(s, t, a, x);
    }
    if x in t.intact {
      var a :| a in Anchors(t) && Reach(t.graph, a, x);
      StillHidden(s, t);
      assert a in s.outside;
      ReachBefore(s, t, a, x);
    }
  }
}
