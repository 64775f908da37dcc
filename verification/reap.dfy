// Third pass of the cycle collector: finalise the condemned objects in post-order,
// each pinned by an extra reference until then.

module Reaping {
  import opened Values
  import opened RefGraph
  import opened HeapState
  import opened Objects
  import opened Marking

  /** What the first two passes establish about the condemned objects `C`: only `C`
      holds references to them, and nothing but what it holds keeps them alive. */
  ghost predicate Condemned(s: State, C: set<Ref>) {
    && s.Wf() && s.dying == {} && C <= s.intact && C <= s.graph.Keys
    && Sealed(s.graph, C)
    && (forall x :: x in C ==> s.refCount[x] == Tally(s.graph, C).Strong()[x] && Tally(s.graph, C).hidden[x] == 0)
    && (forall x :: x in s.intact ==> s.mark[x] == if x in C then 2 else 0)
    && s.isolated <= C
    && (forall x :: x in C ==> ReachFrom(s.graph, s.isolated, x))
    && (forall x, r :: x in C && r in s.isolated && Edge(s.graph, x, r) ==> Reach(s.graph, r, x))
  }

  /** Of the condemned objects, `pending` are not reached yet, `pinned` are on the way
      and `done` finalised. */
  datatype Sets = Sets(pending: set<Ref>, pinned: set<Ref>, done: set<Ref>)

  /** Between two steps of the pass that started in `s0`. */
  ghost predicate Phase(s0: State, s: State, C: set<Ref>, p: Sets) {
    s.Wf() && Ledger(s0, s, C, p) && Shape(s0, s, C, p) && Aloof(s0, s, C) && NewlyListed(s0, s, C)
  }

  /** A set of objects that nobody else refers to, none of them condemned, loses nothing. */
  ghost predicate Aloof(s0: State, s: State, C: set<Ref>) {
    forall D :: Sealed(s0.graph, D) && D !! C ==> Sealed(s.graph, D) && Exactly(s0, s, NoRefs(), D)
  }

  /** Outside the condemned, only who lost a reference has become a candidate. */
  ghost predicate NewlyListed(s0: State, s: State, C: set<Ref>) {
    forall x :: x !in C ==>
      && s.refCount[x] <= s0.refCount[x]
      && (x in s.unreferred ==> x in s0.unreferred || s.refCount[x] < s0.refCount[x])
  }

  /** The counts: each pinned object has one reference more than at the start, and
      the references held by the finalised objects are gone. */
  ghost predicate Ledger(s0: State, s: State, C: set<Ref>, p: Sets) {
    && s.dying == {} && C <= s0.graph.Keys && s.intact <= s0.intact
    && p.pending + p.pinned + p.done == C
    && p.pending !! p.pinned && p.pending !! p.done && p.pinned !! p.done
    && s.outside == s0.outside + multiset(p.pinned) && s.weakOutside == s0.weakOutside
    && (forall x :: x in C ==>
          s.refCount[x] + Tally(s0.graph, p.done).Strong()[x] == s0.refCount[x] + if x in p.pinned then 1 else 0)
    && s.isolated == s0.isolated * s.intact
  }

  ghost predicate Shape(s0: State, s: State, C: set<Ref>, p: Sets) {
    && Sealed(s.graph, C)
    && (forall x :: x in C && x !in p.done ==> Untouched(s0, s, x))
    && (forall x :: x in s.intact && x !in C ==>
          Untouched(s0, s, x) && (s.refCount[x] < s0.refCount[x] ==> x in s.unreferred))
    && (forall x :: x in p.done && x in s.members ==> |s.members[x]| == 0)
    && (forall x, y :: x in p.done && Edge(s0.graph, x, y) ==> y !in p.pending)
    && (forall x :: x in s0.intact ==> s.mark[x] == if x !in C then 0 else if x in p.pending then 2 else 3)
    && (forall x :: x !in s0.intact ==> s.mark[x] == s0.mark[x])
  }

  ghost predicate Untouched(s0: State, s: State, x: Ref) {
    && x in s0.members && x in s0.graph && x in s.intact && x in s.members && x in s.graph
    && s.members[x] == s0.members[x] && s.graph[x] == s0.graph[x]
  }

  // ---- the pin ----------------------------------------------------------------

  /** An extra reference and mark 3. */
  function Pin(s: State, o: Ref): State {
    s.Gain(o).(mark := s.mark[o := 3])
  }

  lemma PinPhase(s0: State, s: State, C: set<Ref>, p: Sets, o: Ref)
    requires Phase(s0, s, C, p) && o in p.pending && o in s0.intact
    ensures Phase(s0, Pin(s, o), C, Sets(p.pending - {o}, p.pinned + {o}, p.done))
  {
    hide State.Wf, Ledger, Sealed, Aloof, NewlyListed;
    PhaseSets(s0, s, C, p);
    PinWf(s, o);
    PinLedger(s0, s, C, p, o);
    PinAloof(s0, s, C, o);
  }

  lemma PinAloof(s0: State, s: State, C: set<Ref>, o: Ref)
    requires Aloof(s0, s, C) && NewlyListed(s0, s, C) && o in C
    ensures Aloof(s0, Pin(s, o), C) && NewlyListed(s0, Pin(s, o), C)
  {
    hide Sealed;
  }

  lemma PhaseSets(s0: State, s: State, C: set<Ref>, p: Sets)
    requires Ledger(s0, s, C, p)
    ensures p.done <= C && p.pinned <= C && p.pending <= C && p.pending !! p.done && p.pending !! p.pinned
    ensures s.dying == {} && s.intact <= s0.intact && p.pinned !! p.done
  {
  }

  lemma PinLedger(s0: State, s: State, C: set<Ref>, p: Sets, o: Ref)
    requires Ledger(s0, s, C, p) && o in p.pending
    ensures Ledger(s0, Pin(s, o), C, Sets(p.pending - {o}, p.pinned + {o}, p.done))
  {
    hide Tally;
    assert multiset(p.pinned + {o}) == multiset(p.pinned) + multiset{o};
  }

  lemma PinWf(s: State, o: Ref)
    requires s.Wf() && o in s.intact && s.mark[o] != 0
    ensures Pin(s, o).Wf()
  {
    GainWf(s, o);
  }

  // ---- the post-order step -------------------------------------------------------

  /** Within `C`, what a finalised object gives up is spared: other finalised objects
      are empty, pinned ones have their pin, and pending ones are not referred to. */
  lemma PostSpares(s0: State, s: State, C: set<Ref>, p: Sets, o: Ref)
    requires Condemned(s0, C) && Phase(s0, s, C, p) && o in p.pinned
    requires forall y :: Edge(s0.graph, o, y) ==> y !in p.pending
    ensures o in s0.graph && o in s.graph && s.graph[o] == s0.graph[o] && Spares(s, s.graph[o], C)
  {
    hide State.Wf, Tally, Sealed, ReachFrom, Reach;
    assert Untouched(s0, s, o);
    forall x | x in C && x in s.graph[o].Strong() && x in s.members
      ensures |s.members[x]| == 0 || s.refCount[x] > s.graph[o].Strong()[x]
    {
      Dropped(s0, C, p.done, o, x);
      assert x in s0.graph[o].scanned && Edge(s0.graph, o, x);
    }
  }

  /** The condemned objects, `done` and `o` among them, hold at least what these two hold. */
  lemma Dropped(s0: State, C: set<Ref>, done: set<Ref>, o: Ref, x: Ref)
    requires C <= s0.graph.Keys && done <= C && o in C && o !in done
    ensures Tally(s0.graph, done).Strong()[x] + s0.graph[o].Strong()[x] <= Tally(s0.graph, C).Strong()[x]
    ensures x in s0.graph[o].hidden ==> Tally(s0.graph, C).hidden[x] > 0
  {
    hide Tally;
    TallyUnion(s0.graph, done, C - done);
    assert done + (C - done) == C;
    TallyTake(s0.graph, C - done, o);
  }

  /** `o` finalised and unpinned: it gave up just what it held, and its pin. */
  lemma PostLedger(s0: State, s: State, t: State, u: State, C: set<Ref>, p: Sets, o: Ref)
    requires Ledger(s0, s, C, p) && o in p.pinned && o in s0.graph
    requires Emptied(s, t, o) && Exactly(s, t, s0.graph[o], C)
    requires Released(t, u, StrongRef(o)) && Exactly(t, u, StrongRef(o), C)
    ensures Ledger(s0, u, C, Sets(p.pending, p.pinned - {o}, p.done + {o}))
  {
    hide Tally, KeptMembers, Enlisted, Settled, Released, Emptied;
    MoveToDone(p, C, o);
    PostLists(s0, s, t, u, o);
    PostOutside(s0, s, t, u, p, o);
    DoneTally(s0, p, o);
    assert StrongRef(o).Strong() == multiset{o};
  }

  lemma PostOutside(s0: State, s: State, t: State, u: State, p: Sets, o: Ref)
    requires s.outside == s0.outside + multiset(p.pinned) && s.weakOutside == s0.weakOutside && o in p.pinned
    requires Emptied(s, t, o) && Released(t, u, StrongRef(o))
    ensures u.outside == s0.outside + multiset(p.pinned - {o}) && u.weakOutside == s0.weakOutside
  {
    assert StrongRef(o).Strong() == multiset{o};
    assert multiset(p.pinned) == multiset(p.pinned - {o}) + multiset{o};
  }

  lemma PostLists(s0: State, s: State, t: State, u: State, o: Ref)
    requires s.isolated == s0.isolated * s.intact && s.intact <= s0.intact
    requires Emptied(s, t, o) && Released(t, u, StrongRef(o))
    ensures u.isolated == s0.isolated * u.intact && u.intact <= s0.intact
    ensures u.dying == t.dying == s.dying && u.mark == s.mark
  {
  }

  lemma MoveToDone(p: Sets, C: set<Ref>, o: Ref)
    requires p.pending + p.pinned + p.done == C && o in p.pinned
    requires p.pending !! p.pinned && p.pending !! p.done && p.pinned !! p.done
    ensures p.pending + (p.pinned - {o}) + (p.done + {o}) == C
    ensures p.pending !! p.pinned - {o} && p.pending !! p.done + {o} && p.pinned - {o} !! p.done + {o}
  {
  }

  lemma DoneTally(s0: State, p: Sets, o: Ref)
    requires o in s0.graph && p.done <= s0.graph.Keys && o !in p.done
    ensures Tally(s0.graph, p.done + {o}).Strong() == s0.graph[o].Strong() + Tally(s0.graph, p.done).Strong()
  {
    hide Tally;
    TallyTake(s0.graph, p.done + {o}, o);
    assert p.done + {o} - {o} == p.done;
    StrongPlus(s0.graph[o], Tally(s0.graph, p.done));
  }

  /** A condemned object that is not finalised keeps a reference. */
  lemma StaysIntact(s0: State, u: State, C: set<Ref>, p: Sets, x: Ref)
    requires Condemned(s0, C) && Ledger(s0, u, C, p) && x in C && x !in p.done
    requires forall h, y :: h in p.done && Edge(s0.graph, h, y) ==> y !in p.pending
    ensures x in u.refCount
  {
    hide Tally, Sealed, ReachFrom, Reach, State.Wf;
    TallyUnion(s0.graph, p.done, C - p.done);
    assert p.done + (C - p.done) == C;
    IntactCounted(s0, x);
    if x in p.pending {
      TallyIn(s0.graph, p.done, x);
      forall h | h in p.done ensures x !in s0.graph[h].scanned {
        assert x in s0.graph[h].scanned ==> Edge(s0.graph, h, x);
      }
    }
  }

  lemma IntactCounted(s: State, x: Ref)
    requires s.Wf() && x in s.intact
    ensures x in s.refCount && x in s.members && x in s.graph
  {
    assert x in s.weakCount;
  }

  lemma CountedIntact(s: State, x: Ref)
    requires s.Wf() && x in s.refCount
    ensures x in s.intact && x in s.members && x in s.graph
  {
    assert x in s.weakCount;
  }

  lemma PostShape(s0: State, s: State, t: State, u: State, C: set<Ref>, p: Sets, o: Ref)
    requires Condemned(s0, C) && Shape(s0, s, C, p) && Ledger(s0, s, C, p) && o in p.pinned
    requires forall y :: Edge(s0.graph, o, y) ==> y !in p.pending
    requires Emptied(s, t, o) && o in t.members && |t.members[o]| == 0
    requires Released(t, u, StrongRef(o)) && u.Wf() && Sealed(u.graph, C)
    requires Ledger(s0, u, C, Sets(p.pending, p.pinned - {o}, p.done + {o}))
    ensures Shape(s0, u, C, Sets(p.pending, p.pinned - {o}, p.done + {o}))
  {
    hide State.Wf, Tally, Sealed, ReachFrom, Reach, Enlisted, Edge, Condemned, Ledger, Emptied, Released, Untouched;
    var q := Sets(p.pending, p.pinned - {o}, p.done + {o});
    PhaseSets(s0, s, C, p);
    PhaseSets(s0, u, C, q);
    IsolatedCondemned(s0, s, C, p);
    PostSame(s, t, u, o);
    forall x | x in C && x !in q.done ensures Untouched(s0, u, x) {
      StaysIntact(s0, u, C, q, x);
      PostUntouched(s0, s, t, u, o, x);
    }
    forall x | x in u.intact && x !in C
      ensures Untouched(s0, u, x) && (u.refCount[x] < s0.refCount[x] ==> x in u.unreferred)
    {
      IntactCounted(u, x);
      PostUntouched(s0, s, t, u, o, x);
      PostEnlisted(s, t, u, o, x);
    }
    forall x | x in q.done && x in u.members ensures |u.members[x]| == 0 {
      PostEmpty(s, t, u, o, x);
    }
  }

  lemma IsolatedCondemned(s0: State, s: State, C: set<Ref>, p: Sets)
    requires Condemned(s0, C) && Ledger(s0, s, C, p)
    ensures s.isolated <= C
  {
  }

  /** Who lost a reference on the way is a candidate. */
  lemma PostEnlisted(s: State, t: State, u: State, o: Ref, x: Ref)
    requires Emptied(s, t, o) && Released(t, u, StrongRef(o))
    requires x in u.intact && x !in s.isolated && s.mark[x] == 0
    ensures x in s.unreferred || u.refCount[x] < s.refCount[x] ==> x in u.unreferred
  {
  }

  lemma PostSame(s: State, t: State, u: State, o: Ref)
    requires Emptied(s, t, o) && Released(t, u, StrongRef(o))
    ensures u.mark == s.mark && u.dying == s.dying && u.intact <= s.intact
  {
  }

  lemma PostUntouched(s0: State, s: State, t: State, u: State, o: Ref, x: Ref)
    requires x != o && Untouched(s0, s, x) && x in u.refCount
    requires Emptied(s, t, o) && Released(t, u, StrongRef(o)) && u.Wf()
    ensures Untouched(s0, u, x)
  {
    hide State.Wf, Enlisted;
    CountedIntact(u, x);
    assert KeptMembers(s, t, x) && KeptMembers(t, u, x);
  }

  lemma PostEmpty(s: State, t: State, u: State, o: Ref, x: Ref)
    requires x in s.members ==> |s.members[x]| == 0 || x == o
    requires Emptied(s, t, o) && Released(t, u, StrongRef(o)) && u.Wf() && u.dying == {}
    requires o in t.members && |t.members[o]| == 0 && x in u.members
    ensures |u.members[x]| == 0
  {
    hide State.Wf, Enlisted;
    if x in u.intact {
      assert KeptMembers(t, u, x);
      assert x != o ==> KeptMembers(s, t, x);
    } else {
      DeadIsEmpty(u, x);
    }
  }

  /** The post-order step: `o` is finalised and gives back its pin. */
  lemma PostPhase(s0: State, s: State, t: State, u: State, C: set<Ref>, p: Sets, o: Ref, gone: Refs)
    requires Condemned(s0, C) && Phase(s0, s, C, p) && o in p.pinned
    requires forall y :: Edge(s0.graph, o, y) ==> y !in p.pending
    requires Emptying(s, t, o, gone) && |t.members[o]| == 0
    requires Freed(t, u, StrongRef(o))
    ensures Phase(s0, u, C, Unpinned(p, o))
  {
    hide State.Wf, Condemned, Ledger, Sealed, Emptied, Released, Exactly, Untouched;
    PostSpares(s0, s, C, p, o);
    GoneAll(s, t, o, gone);
    assert Exactly(s, t, s0.graph[o], C);
    PhaseSets(s0, s, C, p);
    PostSealed(s, t, u, C, o, gone);
    assert Spares(t, StrongRef(o), C);
    assert Exactly(t, u, StrongRef(o), C);
    PostLedger(s0, s, t, u, C, p, o);
    PostShape(s0, s, t, u, C, p, o);
    PostAloof(s0, s, t, u, C, o, gone);
    PostListed(s0, s, t, u, C, o);
  }

  /** What `o` gives up does not concern a set that nobody else refers to. */
  lemma PostAloof(s0: State, s: State, t: State, u: State, C: set<Ref>, o: Ref, gone: Refs)
    requires Aloof(s0, s, C) && o in C && s.Wf()
    requires Emptying(s, t, o, gone) && |t.members[o]| == 0 && Freed(t, u, StrongRef(o))
    ensures Aloof(s0, u, C)
  {
    hide State.Wf, Sealed, Spares, Exactly, Emptied, Released;
    GoneAll(s, t, o, gone);
    forall D | Sealed(s0.graph, D) && D !! C ensures Sealed(u.graph, D) && Exactly(s0, u, NoRefs(), D) {
      PostSealed(s, t, u, D, o, gone);
      HoldsNothingIn(s, t, u, D, o);
      ApartExactly(s0, s, t, u, gone, D, o);
    }
  }

  lemma HoldsNothingIn(s: State, t: State, u: State, D: set<Ref>, o: Ref)
    requires o in s.graph && o !in D && Sealed(s.graph, D)
    ensures Spares(s, s.graph[o], D) && Spares(t, StrongRef(o), D)
    ensures forall x :: x in D ==> s.graph[o].Strong()[x] == 0
  {
    assert StrongRef(o).Strong() == multiset{o};
    assert s.graph[o].Strong() !! multiset(D);
    assert forall x :: x in D ==> x in multiset(D);
  }

  lemma ApartExactly(s0: State, s: State, t: State, u: State, gone: Refs, D: set<Ref>, o: Ref)
    requires Exactly(s0, s, NoRefs(), D) && Exactly(s, t, gone, D) && Exactly(t, u, StrongRef(o), D) && o !in D
    requires forall x :: x in D ==> gone.Strong()[x] == 0
    ensures Exactly(s0, u, NoRefs(), D)
  {
    assert StrongRef(o).Strong() == multiset{o} && NoRefs().Strong() == multiset{};
  }

  lemma PostListed(s0: State, s: State, t: State, u: State, C: set<Ref>, o: Ref)
    requires NewlyListed(s0, s, C) && u.Wf()
    requires Emptied(s, t, o) && Released(t, u, StrongRef(o))
    ensures NewlyListed(s0, u, C)
  {
  }

  lemma PostSealed(s: State, t: State, u: State, C: set<Ref>, o: Ref, gone: Refs)
    requires s.Wf() && Sealed(s.graph, C) && Emptying(s, t, o, gone) && Freed(t, u, StrongRef(o))
    ensures Sealed(t.graph, C) && Sealed(u.graph, C)
  {
    hide State.Wf, Sealed, Exactly, Spares;
    StrongPlus(gone, t.graph[o]);
    StillSealed(s, t, o, C);
    if o in u.graph {
      KeptGraph(t, u, o);
    }
    StillSealed(t, u, o, C);
  }

  /** What an intact object holds is intact. */
  lemma HeldIntact(s: State, o: Ref, x: Ref)
    requires s.Wf() && o in s.graph && x in s.graph[o].Strong()
    ensures x in s.intact && x in s.members
  {
    hide Tally;
    assert s.held == Tally(s.graph, s.graph.Keys);
    TallyTake(s.graph, s.graph.Keys, o);
    CountedIntact(s, x);
  }

  // ---- the pass -------------------------------------------------------------

  /** `di_scan_type` on an object, with `di_collect_garbage_collect_pre` and `_post`. */
  method ReapObject(h: Heap, o: Ref, ghost s0: State, ghost C: set<Ref>, ghost p: Sets) returns (ghost q: Sets)
    requires Condemned(s0, C) && Phase(s0, h.St(), C, p) && o in h.intact && o in s0.intact
    modifies h
    ensures Phase(s0, h.St(), C, q) && q.pinned == p.pinned && q.pending <= p.pending && o !in q.pending
    ensures h.scanCount == old(h.scanCount)
    decreases p.pending, 0
  {
    hide State.Wf, Condemned, Phase, Emptying, Freed, Unpinned;
    ghost var s := h.St();
    PhaseFacts(s0, s, C, p, o);
    if h.mark[o] == 0 || h.mark[o] == 3 {
      return p;
    }
    PinPhase(s0, s, C, p, o);
    h.RefObject(o);
    h.mark := h.mark[o := 3];
    assert h.St() == Pin(s, o);
    ghost var p1 := Sets(p.pending - {o}, p.pinned + {o}, p.done);
    PinnedFacts(s0, h.St(), C, p1, o);
    q := ReapAll(h, Data(h.members[o]), o, s0, C, p1);
    PostObject(h, o, s0, C, q);
    PinTaken(p, q, o);
    q := Unpinned(q, o);
  }

  /** `di_collect_garbage_collect_post`: all that `o` holds has been passed over. */
  method PostObject(h: Heap, o: Ref, ghost s0: State, ghost C: set<Ref>, ghost q: Sets)
    requires Condemned(s0, C) && Phase(s0, h.St(), C, q) && o in q.pinned && o in s0.graph
    requires forall x :: x in s0.graph[o].scanned ==> x !in q.pending
    modifies h
    ensures Phase(s0, h.St(), C, Unpinned(q, o)) && h.scanCount == old(h.scanCount)
  {
    hide State.Wf, Condemned, Phase, Emptying, Freed, Unpinned;
    ghost var s1 := h.St();
    PinnedFacts(s0, s1, C, q, o);
    assert h.mark[o] == 3;
    ghost var gone := h.Finalize(o);
    ghost var s2 := h.St();
    EmptyingWf(s1, s2, o, gone);
    EmptyingOutside(s1, s2, o, gone);
    h.Unref(o);
    PostPhase(s0, s1, s2, h.St(), C, q, o, gone);
  }

  function Unpinned(q: Sets, o: Ref): Sets {
    Sets(q.pending, q.pinned - {o}, q.done + {o})
  }

  lemma PinTaken(p: Sets, q: Sets, o: Ref)
    requires q.pinned == p.pinned + {o} && q.pending <= p.pending - {o} && o !in p.pinned
    ensures var r := Unpinned(q, o);
      r.pinned == p.pinned && r.pending <= p.pending && o !in r.pending
  {
  }

  lemma PhaseFacts(s0: State, s: State, C: set<Ref>, p: Sets, o: Ref)
    requires Phase(s0, s, C, p) && o in s.intact && o in s0.intact
    ensures s.Wf() && o in s.members && o !in p.pinned * p.pending
    ensures s.mark[o] == 0 || s.mark[o] == 3 ==> o !in p.pending
    ensures s.mark[o] != 0 && s.mark[o] != 3 ==> o in p.pending && o !in p.pinned && o !in p.done
  {
    IntactCounted(s, o);
  }

  lemma PinnedFacts(s0: State, s: State, C: set<Ref>, p: Sets, o: Ref)
    requires Condemned(s0, C) && Phase(s0, s, C, p) && o in p.pinned
    ensures s.Wf() && o in s.members && o in s.outside && s.mark[o] == 3
    ensures o in s0.graph && RefsOfAll(Data(s.members[o])) == s0.graph[o]
    ensures forall x :: x in s0.graph[o].scanned ==> Edge(s0.graph, o, x)
  {
    assert Untouched(s0, s, o);
    assert s.graph[o] == Holds(s.members[o]);
    forall x | x in s0.graph[o].scanned ensures x in s0.graph {
      HeldIntact(s0, o, x);
    }
  }

  lemma PinnedHolds(s0: State, s: State, C: set<Ref>, p: Sets, o: Ref, x: Ref)
    requires Phase(s0, s, C, p) && o in p.pinned && Edge(s0.graph, o, x)
    ensures x in s.intact && x in s0.intact
  {
    assert Untouched(s0, s, o);
    HeldIntact(s, o, x);
  }

  lemma EmptyingOutside(s: State, t: State, o: Ref, gone: Refs)
    requires Emptying(s, t, o, gone)
    ensures t.outside == s.outside
  {
  }

  method ReapValue(h: Heap, v: Value, holder: Ref, ghost s0: State, ghost C: set<Ref>,
      ghost p: Sets) returns (ghost q: Sets)
    requires Condemned(s0, C) && Phase(s0, h.St(), C, p) && holder in p.pinned
    requires forall x :: x in RefsOf(v).scanned ==> Edge(s0.graph, holder, x)
    modifies h
    ensures Phase(s0, h.St(), C, q) && q.pinned == p.pinned && q.pending <= p.pending
    ensures forall x :: x in RefsOf(v).scanned ==> x !in q.pending
    ensures h.scanCount == old(h.scanCount)
    decreases p.pending, 1, v, 0
  {
    hide State.Wf, Condemned, Phase, Edge;
    match v
    case Object(o) =>
      PinnedHolds(s0, h.St(), C, p, holder, o);
      q := ReapObject(h, o, s0, C, p);
    case Array(elems) => q := ReapAll(h, elems, holder, s0, C, p);
    case Tuple(elems) => q := ReapAll(h, elems, holder, s0, C, p);
    case Variant(inner) => q := ReapValue(h, inner, holder, s0, C, p);
    case _ => q := p;
  }

  method ReapAll(h: Heap, vs: seq<Value>, holder: Ref, ghost s0: State, ghost C: set<Ref>,
      ghost p: Sets) returns (ghost q: Sets)
    requires Condemned(s0, C) && Phase(s0, h.St(), C, p) && holder in p.pinned
    requires forall x :: x in RefsOfAll(vs).scanned ==> Edge(s0.graph, holder, x)
    modifies h
    ensures Phase(s0, h.St(), C, q) && q.pinned == p.pinned && q.pending <= p.pending
    ensures forall x :: x in RefsOfAll(vs).scanned ==> x !in q.pending
    ensures h.scanCount == old(h.scanCount)
    decreases p.pending, 1, vs, 1
  {
    hide State.Wf, Condemned, Phase, Edge, RefsOf, RefsOfAll;
    q := p;
    ghost var seen: multiset<Ref> := multiset{};
    RefsOfRest(vs, 0);
    var i := 0;
    while i < |vs|
      invariant 0 <= i <= |vs|
      invariant seen + RefsOfAll(vs[i..]).scanned == RefsOfAll(vs).scanned
      invariant Phase(s0, h.St(), C, q) && q.pinned == p.pinned && q.pending <= p.pending
      invariant forall x :: x in seen ==> x !in q.pending
      invariant h.scanCount == old(h.scanCount)
    {
      RefsOfRest(vs, i);
      q := ReapValue(h, vs[i], holder, s0, C, q);
      seen := seen + RefsOf(vs[i]).scanned;
      i := i + 1;
    }
    RefsOfRest(vs, |vs|);
    assert seen == RefsOfAll(vs).scanned;
  }
}
