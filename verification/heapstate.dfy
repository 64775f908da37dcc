// The state of the object heap, and what giving up references does to it.

module HeapState {
  import opened Values
  import opened RefGraph

  /** The heap, field by field: `refCount[o]` is the field `ref_count` of the
      object at address `o`, and so on (a multiset is a table of counters that
      reads 0 where nothing was stored).  `members` has an entry for every object
      whose storage is not yet released.  From `graph` on, the fields record who
      holds what and exist for proof only. */
  datatype State = State(
    members: map<Ref, seq<Member>>,
    refCount: multiset<Ref>,
    weakCount: multiset<Ref>,
    mark: multiset<Ref>,
    destroyed: set<Ref>,
    unreferred: set<Ref>,         // candidate roots for the next collection
    isolated: set<Ref>,           // roots of the collection in progress
    graph: Graph,                 // what each object holds
    held: Refs,                   // the sum of `graph`
    intact: set<Ref>,             // objects with strong references
    dying: set<Ref>,              // objects being destroyed right now
    outside: multiset<Ref>,       // strong references not held by a member
    weakOutside: multiset<Ref>    // weak references not held by a member
  ) {
    ghost predicate Counts() {
      && refCount == outside + held.scanned + held.hidden
      && weakCount == weakOutside + held.weak + multiset(intact + dying)
      && (forall o :: o in refCount <==> o in intact)
      && (forall o :: o in weakCount <==> o in members)
      && dying !! intact
    }

    /** (The guards `ms` and `S` keep the sums folded.) */
    ghost predicate Mirrors() {
      && members.Keys == graph.Keys
      && (forall o, ms | o in members && ms == members[o] :: graph[o] == Holds(ms))
      && (forall S | S == graph.Keys :: held == Tally(graph, S))
    }

    ghost predicate Flags() {
      && destroyed !! intact && unreferred <= intact && isolated <= intact && unreferred !! isolated
      && (forall o :: o in unreferred ==> mark[o] == 0)
      && (forall o :: o in members ==> o in intact || o in dying || (o in destroyed && |members[o]| == 0))
    }

    ghost predicate Wf() {
      Counts() && Mirrors() && Flags()
    }

    // ---- single steps -------------------------------------------------------

    /** `di_decrement_weak_ref_count`: the storage goes with the last weak count. */
    function LessWeak(o: Ref): State {
      if weakCount[o] == 1
      then this.(weakCount := weakCount[o := 0], members := members - {o}, graph := graph - {o})
      else this.(weakCount := weakCount[o := if weakCount[o] == 0 then 0 else weakCount[o] - 1])
    }

    /** One strong reference more. */
    function Gain(o: Ref): State {
      this.(refCount := refCount[o := refCount[o] + 1], outside := outside + multiset{o})
    }

    /** One weak reference more. */
    function GainWeak(o: Ref): State {
      this.(weakCount := weakCount[o := weakCount[o] + 1], weakOutside := weakOutside + multiset{o})
    }

    /** All the references in `r` more. */
    function GainAll(r: Refs): State {
      this.(refCount := refCount + r.Strong(), outside := outside + r.Strong(),
            weakCount := weakCount + r.weak, weakOutside := weakOutside + r.weak)
    }

    /** A reference to `o` given up while others remain. */
    function LoseOne(o: Ref): State {
      this.(refCount := refCount[o := if refCount[o] == 0 then 0 else refCount[o] - 1],
            outside := outside - multiset{o},
            unreferred := if o in unreferred || o in isolated || mark[o] != 0 then unreferred else unreferred + {o})
    }

    /** The last reference to `o` given up: `o` starts to die. */
    function Doom(o: Ref): State {
      this.(refCount := refCount[o := 0], intact := intact - {o},
            outside := outside - multiset{o}, dying := dying + {o},
            unreferred := unreferred - {o}, isolated := isolated - {o})
    }

    /** Member `i` of `o` taken out: what it held is now outside. */
    ghost function Take(o: Ref, i: nat): State
      requires o in members && i < |members[o]|
    {
      var r := RefsOf(members[o][i].value);
      var rest := Without(members[o], i);
      var g := graph[o := Holds(rest)];
      this.(members := members[o := rest], graph := g, held := Tally(g, g.Keys),
            outside := outside + r.Strong(), weakOutside := weakOutside + r.weak)
    }

    /** `m` added to the members of `o`: what it holds is no longer outside. */
    ghost function Put(o: Ref, m: Member): State
      requires o in members
    {
      var r := RefsOf(m.value);
      var more := members[o] + [m];
      var g := graph[o := Holds(more)];
      this.(members := members[o := more], graph := g, held := Tally(g, g.Keys),
            outside := outside - r.Strong(), weakOutside := weakOutside - r.weak)
    }
  }

  function StrongRef(o: Ref): Refs { Refs(multiset{o}, multiset{}, multiset{}) }

  function WeakRef(o: Ref): Refs { Refs(multiset{}, multiset{}, multiset{o}) }

  // ---- what giving up references does ---------------------------------------

  /** What giving up the outside references `gone` does, cascades included: some
      objects die, every other keeps its members, and a survivor that lost a
      reference becomes a candidate unless the collector has marked it. */
  ghost predicate Released(s: State, t: State, gone: Refs) {
    && gone.Strong() <= s.outside && t.outside == s.outside - gone.Strong()
    && gone.weak <= s.weakOutside && t.weakOutside == s.weakOutside - gone.weak
    && t.dying == s.dying && Settled(s, t)
    && forall o :: o in t.members ==> KeptMembers(s, t, o)
  }

  /** What dropping members of `o` does to everything else. */
  ghost predicate Emptied(s: State, t: State, o: Ref) {
    t.dying == s.dying && Apart(s, t, o)
  }

  /** What the destruction of the dying object `o` does to everything else. */
  ghost predicate Died(s: State, t: State, o: Ref) {
    t.dying == s.dying - {o} && Apart(s, t, o)
  }

  ghost predicate Apart(s: State, t: State, o: Ref) {
    && t.outside == s.outside && t.weakOutside == s.weakOutside && Settled(s, t)
    && forall x :: x in t.members && x != o ==> KeptMembers(s, t, x)
  }

  ghost predicate Settled(s: State, t: State) {
    && t.mark == s.mark && t.members.Keys <= s.members.Keys
    && t.intact <= s.intact && t.refCount <= s.refCount && s.destroyed <= t.destroyed
    && t.isolated == s.isolated * t.intact
    && forall o :: o in t.intact ==> (o in t.unreferred <==> o in s.unreferred || Enlisted(s, t, o))
  }

  /** `o` lost a reference that makes it a candidate. */
  ghost predicate Enlisted(s: State, t: State, o: Ref) {
    t.refCount[o] < s.refCount[o] && t.mark[o] == 0 && o !in s.isolated
  }

  ghost predicate KeptMembers(s: State, t: State, o: Ref) {
    && o in s.members && o in t.members && o in s.graph && o in t.graph
    && (o in t.intact || o !in s.intact ==> t.members[o] == s.members[o] && t.graph[o] == s.graph[o])
  }

  /** Objects outside `C` hold no strong reference into `C`. */
  ghost predicate Sealed(g: Graph, C: set<Ref>) {
    forall x :: x in g && x !in C ==> g[x].Strong() !! multiset(C)
  }

  /** No object of `C` with members runs out of references when `gone` is given up. */
  ghost predicate Spares(s: State, gone: Refs, C: set<Ref>) {
    forall x :: x in C && x in gone.Strong() && x in s.members ==>
      |s.members[x]| == 0 || s.refCount[x] > gone.Strong()[x]
  }

  /** The objects of `C` lost the references in `gone` and no others. */
  ghost predicate Exactly(s: State, t: State, gone: Refs, C: set<Ref>) {
    forall x :: x in C ==> t.refCount[x] + gone.Strong()[x] == s.refCount[x]
  }

  /** The contracts of the operations that give up references, in one piece each:
      what they do to everything, and that there is no cascade within a sealed set
      whose objects `gone` spares. */
  ghost predicate Freed(s: State, t: State, gone: Refs) {
    Freeing(s, t, gone, gone)
  }

  /** A list of values holding `all` is being freed; `gone` is what went so far. */
  ghost predicate Freeing(s: State, t: State, gone: Refs, all: Refs) {
    && t.Wf() && Released(s, t, gone)
    && forall C :: Sealed(s.graph, C) && Spares(s, all, C) ==> Exactly(s, t, gone, C)
  }

  ghost predicate Destroyed(s: State, t: State, o: Ref) {
    && t.Wf() && Died(s, t, o)
    && forall C :: Sealed(s.graph, C) && (o in C ==> o in s.members && |s.members[o]| == 0) ==>
         Exactly(s, t, NoRefs(), C)
  }

  /** `o` is being emptied; `gone` is what it has given up so far. */
  ghost predicate Emptying(s: State, t: State, o: Ref, gone: Refs) {
    && t.Wf() && Emptied(s, t, o) && o in s.graph && o in t.members && o in t.graph
    && gone.Plus(t.graph[o]) == s.graph[o]
    && forall C :: Sealed(s.graph, C) && Spares(s, s.graph[o], C) ==> Exactly(s, t, gone, C)
  }

  lemma StrongPlus(a: Refs, b: Refs)
    ensures a.Plus(b).Strong() == a.Strong() + b.Strong()
  {
  }

  lemma ReleasedNothing(s: State)
    requires s.members.Keys == s.graph.Keys && s.isolated <= s.intact
    ensures Released(s, s, NoRefs())
  {
    assert NoRefs().Strong() == multiset{};
  }

  lemma SettledTrans(s: State, t: State, u: State)
    requires Settled(s, t) && Settled(t, u)
    ensures Settled(s, u)
  {
  }

  lemma ReleasedTrans(s: State, t: State, u: State, a: Refs, b: Refs)
    requires Released(s, t, a) && Released(t, u, b)
    ensures Released(s, u, a.Plus(b))
  {
    StrongPlus(a, b);
    SettledTrans(s, t, u);
    forall o | o in u.members ensures KeptMembers(s, u, o) {
      assert KeptMembers(t, u, o) && KeptMembers(s, t, o);
    }
  }

  lemma ExactlyTrans(s: State, t: State, u: State, a: Refs, b: Refs, C: set<Ref>)
    requires Exactly(s, t, a, C) && Exactly(t, u, b, C)
    ensures Exactly(s, u, a.Plus(b), C)
  {
    StrongPlus(a, b);
  }

  /** An empty object stays empty. */
  lemma StillEmpty(s: State, t: State, x: Ref)
    requires s.Wf() && t.Wf() && t.dying == s.dying && KeptMembers(s, t, x) && |s.members[x]| == 0
    ensures |t.members[x]| == 0
  {
  }

  /** A sealed set stays sealed: who dies holds nothing any more. */
  lemma StillSealed(s: State, t: State, o: Ref, C: set<Ref>)
    requires Sealed(s.graph, C) && s.Wf() && t.Wf() && t.dying == s.dying
    requires forall x :: x in t.members && x != o ==> KeptMembers(s, t, x)
    requires o in t.graph ==> o in s.graph && t.graph[o].Strong() <= s.graph[o].Strong()
    ensures Sealed(t.graph, C)
  {
    hide State.Wf;
    forall x | x in t.graph && x !in C ensures t.graph[x].Strong() !! multiset(C) {
      if x != o {
        KeptGraph(s, t, x);
      }
    }
  }

  lemma KeptGraph(s: State, t: State, x: Ref)
    requires s.Wf() && t.Wf() && t.dying == s.dying && x in t.graph
    requires x in t.members ==> KeptMembers(s, t, x)
    ensures x in s.graph && (t.graph[x] == s.graph[x] || t.graph[x] == NoRefs())
  {
    if x !in t.intact && x in s.intact {
      NoMembers(t, x);
    }
  }

  lemma ApartTrans(s: State, t: State, u: State, o: Ref)
    requires Apart(s, t, o) && Apart(t, u, o)
    ensures Apart(s, u, o)
  {
    SettledTrans(s, t, u);
    forall x | x in u.members && x != o ensures KeptMembers(s, u, x) {
      assert KeptMembers(t, u, x) && KeptMembers(s, t, x);
    }
  }

  /** The whole of giving up the last reference to `o`: first `o` is doomed, then destroyed. */
  lemma DestroyedReleased(s: State, t: State, u: State, o: Ref)
    requires s.Wf() && o in s.outside && s.refCount[o] == 1
    requires (t.members, t.graph, t.mark, t.destroyed, t.weakOutside) ==
      (s.members, s.graph, s.mark, s.destroyed, s.weakOutside)
    requires t.refCount == s.refCount[o := 0] && t.intact == s.intact - {o}
    requires t.outside == s.outside - multiset{o} && t.dying == s.dying + {o}
    requires t.unreferred == s.unreferred - {o} && t.isolated == s.isolated - {o}
    requires Died(t, u, o) && u.graph.Keys == u.members.Keys
    ensures Released(s, u, StrongRef(o))
  {
    Outside(s, o);
    WfKeys(s);
    hide Settled, KeptMembers, State.Wf;
    assert StrongRef(o).Strong() == multiset{o};
    DoomedSettled(s, t, u, o);
    forall x | x in u.members ensures KeptMembers(s, u, x) {
      DoomedKept(s, t, u, o, x);
    }
  }

  lemma DoomedSettled(s: State, t: State, u: State, o: Ref)
    requires s.isolated <= s.intact && Settled(t, u)
    requires t.members == s.members && t.mark == s.mark && t.destroyed == s.destroyed
    requires t.refCount == s.refCount[o := 0] && t.intact == s.intact - {o}
    requires t.unreferred == s.unreferred - {o} && t.isolated == s.isolated - {o}
    ensures Settled(s, u) && u.intact <= t.intact && u.members.Keys <= t.members.Keys
  {
    assert u.refCount <= s.refCount;
  }

  lemma DoomedKept(s: State, t: State, u: State, o: Ref, x: Ref)
    requires s.members.Keys == s.graph.Keys && t.members == s.members && t.graph == s.graph
    requires t.intact == s.intact - {o} && x in u.members
    requires u.graph.Keys == u.members.Keys && u.members.Keys <= t.members.Keys
    requires x != o ==> KeptMembers(t, u, x)
    requires u.intact <= t.intact && o in s.intact
    ensures KeptMembers(s, u, x)
  {
  }

  /** One member dropped: taken out of `o`, then its value freed. */
  lemma DroppedApart(t: State, u: State, w: State, o: Ref, r: Refs)
    requires o in t.members && t.members.Keys == t.graph.Keys && o in u.members && o in u.graph
    requires u.members == t.members[o := u.members[o]] && u.graph == t.graph[o := u.graph[o]]
    requires u.outside == t.outside + r.Strong() && u.weakOutside == t.weakOutside + r.weak
    requires (u.refCount, u.mark, u.destroyed, u.intact, u.dying, u.unreferred, u.isolated)
          == (t.refCount, t.mark, t.destroyed, t.intact, t.dying, t.unreferred, t.isolated)
    requires Released(u, w, r)
    ensures Emptied(t, w, o)
  {
    assert w.outside == t.outside;
    assert w.weakOutside == t.weakOutside;
    forall x | x in w.members && x != o ensures KeptMembers(t, w, x) {
      assert KeptMembers(u, w, x);
    }
    forall x | x in w.intact ensures Enlisted(t, w, x) <==> Enlisted(u, w, x) {
    }
  }

  lemma EmptiedNothing(s: State, o: Ref)
    requires s.members.Keys == s.graph.Keys && s.isolated <= s.intact
    ensures Emptied(s, s, o)
  {
  }

  lemma WfKeys(s: State)
    requires s.Wf()
    ensures s.members.Keys == s.graph.Keys && s.isolated <= s.intact
  {
  }

  lemma NoMembers(s: State, o: Ref)
    requires s.Wf() && o in s.members && |s.members[o]| == 0
    ensures s.graph[o] == NoRefs()
  {
    assert s.graph[o] == Holds(s.members[o]);
  }

  lemma StillThere(s: State, o: Ref)
    requires s.Wf() && (o in s.dying || o in s.outside)
    ensures o in s.members && (o in s.intact <==> o !in s.dying)
  {
    assert o in s.weakCount;
  }

  /** What comes next, `r`, is spared if all of `all` was. */
  lemma StillSpares(s: State, t: State, gone: Refs, r: Refs, rest: Refs, all: Refs, C: set<Ref>)
    requires Spares(s, all, C) && all == gone.Plus(r.Plus(rest)) && Exactly(s, t, gone, C)
    requires forall x :: x in C && x in t.members && x in all.Strong() ==>
      x in s.members && (|s.members[x]| == 0 ==> |t.members[x]| == 0)
    ensures Spares(t, r, C)
  {
    forall x | x in C && x in r.Strong() && x in t.members
      ensures |t.members[x]| == 0 || t.refCount[x] > r.Strong()[x]
    {
      assert x in all.Strong();
      assert all.Strong()[x] == gone.Strong()[x] + r.Strong()[x] + rest.Strong()[x];
    }
  }

  /** The collector's distinction between scanned and hidden does not matter here. */
  lemma SameGone(s: State, t: State, a: Refs, b: Refs)
    requires a.Strong() == b.Strong() && a.weak == b.weak && Freed(s, t, a)
    ensures Freed(s, t, b)
  {
  }

  /** The end of dying: the weak count that kept the storage is given back. */
  lemma EndOfDying(s: State, u: State, w: State, o: Ref)
    requires Emptied(s, u, o) && o in u.dying && o !in u.intact
    requires w.dying == u.dying - {o}
    requires (w.outside, w.weakOutside, w.refCount, w.mark, w.destroyed, w.intact, w.unreferred, w.isolated)
          == (u.outside, u.weakOutside, u.refCount, u.mark, u.destroyed, u.intact, u.unreferred, u.isolated)
    requires
      || (w.members == u.members && w.graph == u.graph)
      || (w.members == u.members - {o} && w.graph == u.graph - {o})
    ensures Died(s, w, o)
  {
    forall x | x in w.members && x != o ensures KeptMembers(s, w, x) {
      assert KeptMembers(s, u, x);
    }
    forall x | x in w.intact ensures Enlisted(s, w, x) <==> Enlisted(s, u, x) {
    }
  }

  // ---- single steps keep the state well-formed --------------------------------

  lemma GainWf(s: State, o: Ref)
    requires s.Wf() && o in s.intact
    ensures s.Gain(o).Wf()
  {
    assert s.Gain(o).refCount == s.refCount + multiset{o};
  }

  lemma GainWeakWf(s: State, o: Ref)
    requires s.Wf() && o in s.members
    ensures s.GainWeak(o).Wf()
  {
    assert s.GainWeak(o).weakCount == s.weakCount + multiset{o};
  }

  /** What the references in `r` refer to exists. */
  ghost predicate Valid(s: State, r: Refs) {
    (forall x :: x in r.Strong() ==> x in s.intact) && (forall x :: x in r.weak ==> x in s.members)
  }

  lemma GainOne(s: State, o: Ref)
    ensures s.Gain(o) == s.GainAll(StrongRef(o)) == s.GainAll(Refs(multiset{}, multiset{o}, multiset{}))
    ensures s.GainWeak(o) == s.GainAll(WeakRef(o)) && s == s.GainAll(NoRefs())
  {
    assert s.Gain(o).refCount == s.refCount + multiset{o};
    assert s.GainWeak(o).weakCount == s.weakCount + multiset{o};
    assert StrongRef(o).Strong() == multiset{o} && NoRefs().Strong() == WeakRef(o).Strong() == multiset{};
    assert Refs(multiset{}, multiset{o}, multiset{}).Strong() == multiset{o};
  }

  lemma GainPlus(s: State, a: Refs, b: Refs)
    ensures s.GainAll(a).GainAll(b) == s.GainAll(a.Plus(b))
  {
    StrongPlus(a, b);
    assert s.weakCount + a.weak + b.weak == s.weakCount + (a.weak + b.weak);
    assert s.weakOutside + a.weak + b.weak == s.weakOutside + (a.weak + b.weak);
  }

  lemma ValidParts(s: State, gone: Refs, r: Refs, rest: Refs, all: Refs)
    requires Valid(s, all) && all == gone.Plus(r.Plus(rest))
    ensures Valid(s.GainAll(gone), r)
  {
    assert forall x :: all.Strong()[x] == gone.Strong()[x] + r.Strong()[x] + rest.Strong()[x];
  }

  /** Freeing a copy undoes the copy: every count is as it was. */
  lemma CopyFreed(s: State, u: State, r: Refs)
    requires s.Wf() && s.dying == {} && Valid(s, r) && s.GainAll(r).Wf() && Freed(s.GainAll(r), u, r)
    ensures u.refCount == s.refCount && u.intact == s.intact && u.outside == s.outside
    ensures u.members == s.members && u.weakCount == s.weakCount && u.weakOutside == s.weakOutside
  {
    hide State.Wf, Tally;
    CopyFreedStrong(s, u, r);
    SameIntact(s, u);
    forall x | x in s.members ensures x in u.members && u.members[x] == s.members[x] && u.graph[x] == s.graph[x] {
      CopyFreedMember(s, u, r, x);
    }
    WfKeys(s);
    WfKeys(u);
    assert u.graph == s.graph;
    HeldSum(s);
    HeldSum(u);
    SameWeak(s, u);
  }

  lemma CopyFreedStrong(s: State, u: State, r: Refs)
    requires s.Wf() && Valid(s, r) && Freed(s.GainAll(r), u, r)
    ensures u.refCount == s.refCount && u.outside == s.outside && u.weakOutside == s.weakOutside
  {
    hide State.Wf, Settled;
    var t := s.GainAll(r);
    var C := s.graph.Keys + s.intact;
    CountedInGraph(s);
    assert Sealed(t.graph, C) && Spares(t, r, C);
    assert Exactly(t, u, r, C);
    assert u.outside == s.outside && u.weakOutside == s.weakOutside;
    assert Settled(t, u);
    SettledLess(t, u);
    forall x ensures u.refCount[x] == s.refCount[x] {
      assert x !in C ==> t.refCount[x] == 0;
    }
  }

  lemma SettledLess(s: State, t: State)
    requires Settled(s, t)
    ensures t.refCount <= s.refCount
  {
  }

  lemma CountedInGraph(s: State)
    requires s.Wf()
    ensures forall x :: x in s.refCount <==> x in s.intact
  {
  }

  lemma SameIntact(s: State, u: State)
    requires s.Wf() && u.Wf() && s.refCount == u.refCount
    ensures s.intact == u.intact
  {
  }

  lemma HeldSum(s: State)
    requires s.Wf()
    ensures s.held == Tally(s.graph, s.graph.Keys)
  {
  }

  lemma SameWeak(s: State, u: State)
    requires s.Wf() && u.Wf() && s.held == u.held && s.intact == u.intact && s.dying == u.dying
    requires s.weakOutside == u.weakOutside
    ensures s.weakCount == u.weakCount
  {
  }

  lemma CopyFreedMember(s: State, u: State, r: Refs, x: Ref)
    requires s.Wf() && s.dying == {} && Freed(s.GainAll(r), u, r) && u.intact == s.intact
    requires u.weakOutside == s.weakOutside && x in s.members
    ensures x in u.members && x in u.graph && x in s.graph && u.members[x] == s.members[x] && u.graph[x] == s.graph[x]
  {
    hide State.Wf, Tally, Sealed, Spares, Exactly;
    WfKeys(s);
    WfKeys(u);
    WeakIs(s, x);
    WeakIs(u, x);
    HeldSum(s);
    HeldSum(u);
    TallyIn(s.graph, s.graph.Keys, x);
    TallyIn(u.graph, u.graph.Keys, x);
    if x in s.held.weak {
      var y :| y in s.graph && x in s.graph[y].weak;
      HoldsSomething(s, y);
      StillCounted(u, y);
      assert KeptMembers(s.GainAll(r), u, y);
    }
    assert KeptMembers(s.GainAll(r), u, x);
  }

  lemma WeakIs(s: State, x: Ref)
    requires s.Wf()
    ensures s.weakCount[x] == s.weakOutside[x] + s.held.weak[x] + (if x in s.intact + s.dying then 1 else 0)
    ensures x in s.weakCount <==> x in s.members
  {
  }

  lemma HoldsSomething(s: State, y: Ref)
    requires s.Wf() && s.dying == {} && y in s.graph && s.graph[y] != NoRefs()
    ensures y in s.intact
  {
    if y !in s.intact {
      NoMembers(s, y);
    }
  }

  lemma StillCounted(s: State, y: Ref)
    requires s.Wf() && y in s.intact
    ensures y in s.members
  {
    assert y in s.weakCount;
  }

  lemma LoseOneFreed(s: State, o: Ref)
    requires s.Wf() && o in s.outside && s.refCount[o] > 1
    ensures Freed(s, s.LoseOne(o), StrongRef(o))
  {
    hide Released, Sealed, Spares, State.Wf;
    LoseOneWf(s, o);
    LoseOneReleased(s, o);
    LoseOneExactly(s, o);
  }

  lemma LoseOneWf(s: State, o: Ref)
    requires s.Wf() && o in s.outside && s.refCount[o] > 1
    ensures s.LoseOne(o).Wf() && s.members.Keys == s.graph.Keys && s.isolated <= s.intact && o in s.refCount
  {
    LoseOneCounts(s, o);
  }

  lemma LoseOneExactly(s: State, o: Ref)
    requires o in s.outside && o in s.refCount
    ensures forall C :: Sealed(s.graph, C) && Spares(s, StrongRef(o), C) ==> Exactly(s, s.LoseOne(o), StrongRef(o), C)
  {
    hide Sealed, Spares;
    assert StrongRef(o).Strong() == multiset{o};
  }

  lemma LoseOneCounts(s: State, o: Ref)
    requires s.Counts() && o in s.outside && s.refCount[o] > 1
    ensures s.LoseOne(o).Counts()
  {
  }

  lemma LoseOneReleased(s: State, o: Ref)
    requires s.members.Keys == s.graph.Keys && s.isolated <= s.intact && o in s.outside && o in s.refCount
    ensures Released(s, s.LoseOne(o), StrongRef(o))
  {
    var t := s.LoseOne(o);
    assert StrongRef(o).Strong() == multiset{o};
    assert t.refCount == s.refCount - multiset{o};
    forall x | x in t.intact ensures x in t.unreferred <==> x in s.unreferred || Enlisted(s, t, x) {
    }
  }

  lemma DoomWf(s: State, o: Ref)
    requires s.Wf() && o in s.outside && s.refCount[o] == 1
    ensures s.Doom(o).Wf() && o in s.members && o in s.intact
  {
    assert o in s.intact && o in s.weakCount;
  }

  lemma SetDestroyedWf(s: State, o: Ref)
    requires s.Wf() && o in s.dying
    ensures s.(destroyed := s.destroyed + {o}).Wf()
  {
  }

  /** One weak count less, paid for by `weakOutside`. */
  lemma DropWeakFreed(s: State, o: Ref)
    requires s.Wf() && o in s.weakOutside
    ensures Freed(s, s.(weakOutside := s.weakOutside - multiset{o}).LessWeak(o), WeakRef(o))
  {
    var t := s.(weakOutside := s.weakOutside - multiset{o}).LessWeak(o);
    hide State.Wf, Released, Sealed, Spares;
    assert WeakRef(o).Strong() == multiset{};
    LessWeakWf(s, t.weakOutside, s.dying, o);
    WfKeys(s);
    DropWeakReleased(s, o);
  }

  lemma DropWeakReleased(s: State, o: Ref)
    requires s.members.Keys == s.graph.Keys && s.isolated <= s.intact && o in s.weakOutside
    ensures var t := s.(weakOutside := s.weakOutside - multiset{o}).LessWeak(o);
      Released(s, t, WeakRef(o))
  {
    hide Settled, KeptMembers;
    assert WeakRef(o).Strong() == multiset{};
    assert WeakRef(o).weak == multiset{o};
    LessWeakSettled(s, o);
  }

  lemma LessWeakSettled(s: State, o: Ref)
    requires s.members.Keys == s.graph.Keys && s.isolated <= s.intact
    ensures var t := s.(weakOutside := s.weakOutside - multiset{o}).LessWeak(o);
      Settled(s, t) && forall x :: x in t.members ==> KeptMembers(s, t, x)
  {
  }

  /** A weak count is paid for by `weakOutside` or, at the end of dying, by `dying`. */
  lemma LessWeakWf(s: State, weakOutside: multiset<Ref>, dying: set<Ref>, o: Ref)
    requires s.Wf()
    requires || (o in s.weakOutside && weakOutside == s.weakOutside - multiset{o} && dying == s.dying)
             || (o in s.dying && o in s.destroyed && o in s.members && |s.members[o]| == 0
                 && dying == s.dying - {o} && weakOutside == s.weakOutside)
    ensures s.(weakOutside := weakOutside, dying := dying).LessWeak(o).Wf()
  {
    hide Holds, Tally;
    var t := s.(weakOutside := weakOutside, dying := dying).LessWeak(o);
    assert o in s.weakCount && t.weakCount == s.weakCount - multiset{o};
    LessWeakCounts(s, t, o);
    assert t.Mirrors() by {
      if s.weakCount[o] == 1 {
        ForgetMirrors(s, t, o);
      }
    }
    LessWeakFlags(s, t, o);
  }

  lemma LessWeakFlags(s: State, t: State, o: Ref)
    requires s.Flags() && o in s.members
    requires (t.mark, t.destroyed, t.intact, t.unreferred, t.isolated)
          == (s.mark, s.destroyed, s.intact, s.unreferred, s.isolated)
    requires t.members == s.members || t.members == s.members - {o}
    requires t.dying == s.dying || (t.dying == s.dying - {o} && o in s.destroyed && |s.members[o]| == 0)
    ensures t.Flags()
  {
  }

  lemma LessWeakCounts(s: State, t: State, o: Ref)
    requires s.Counts() && t.weakCount == s.weakCount - multiset{o}
    requires (t.refCount, t.outside, t.held, t.intact) == (s.refCount, s.outside, s.held, s.intact)
    requires || (o in s.weakOutside && t.weakOutside == s.weakOutside - multiset{o} && t.dying == s.dying)
             || (o in s.dying && t.dying == s.dying - {o} && t.weakOutside == s.weakOutside)
    requires t.members.Keys == if s.weakCount[o] == 1 then s.members.Keys - {o} else s.members.Keys
    ensures t.Counts()
  {
  }

  lemma ForgetMirrors(s: State, t: State, o: Ref)
    requires s.Mirrors() && o in s.members && |s.members[o]| == 0
    requires t.members == s.members - {o} && t.graph == s.graph - {o} && t.held == s.held
    ensures t.Mirrors()
  {
    assert s.graph[o] == Holds(s.members[o]) == NoRefs();
    TallyTake(s.graph, s.graph.Keys, o);
    PlusLaws(Tally(s.graph, s.graph.Keys - {o}), NoRefs(), NoRefs());
    TallySame(s.graph, t.graph, t.graph.Keys);
    assert t.graph.Keys == s.graph.Keys - {o};
  }

  lemma TakeWf(s: State, o: Ref, i: nat)
    requires s.Wf() && o in s.members && i < |s.members[o]|
    ensures s.Take(o, i).Wf() && o in s.Take(o, i).members && o in s.graph
    ensures var r := RefsOf(s.members[o][i].value);
      && s.graph[o] == r.Plus(s.Take(o, i).graph[o]) && s.held == r.Plus(s.Take(o, i).held)
      && r.Strong() <= s.Take(o, i).outside && r.weak <= s.Take(o, i).weakOutside
  {
    hide Holds, Tally, RefsOf, Without;
    var t := s.Take(o, i);
    var r, h := RefsOf(s.members[o][i].value), Holds(Without(s.members[o], i));
    HoldsWithout(s.members[o], i);
    TakeMirrors(s, t, o, t.members[o], h, r);
    TakeCounts(s, t, r);
    DeadIsEmpty(s, o);
  }

  lemma DeadIsEmpty(s: State, x: Ref)
    requires s.Wf() && x in s.members
    ensures x in s.intact || x in s.dying || |s.members[x]| == 0
  {
  }

  lemma PutWf(s: State, o: Ref, m: Member)
    requires s.Wf() && o in s.intact && o in s.members && o in s.graph
    requires RefsOf(m.value).Strong() <= s.outside && RefsOf(m.value).weak <= s.weakOutside
    ensures s.Put(o, m).Wf() && s.Put(o, m).graph == s.graph[o := RefsOf(m.value).Plus(s.graph[o])]
    ensures s.Put(o, m).held == RefsOf(m.value).Plus(s.held)
  {
    hide Holds, Tally, RefsOf, Without;
    var t := s.Put(o, m);
    var r := RefsOf(m.value);
    HoldsWithout(t.members[o], |s.members[o]|);
    assert Without(t.members[o], |s.members[o]|) == s.members[o] by { WithoutLast(s.members[o], m); }
    PutMirrors(s, t, o, m, r);
    PutCounts(s, t, r);
  }

  lemma WithoutLast(ms: seq<Member>, m: Member)
    ensures Without(ms + [m], |ms|) == ms
  {
  }

  lemma PutMirrors(s: State, t: State, o: Ref, m: Member, r: Refs)
    requires s.Mirrors() && o in s.members && Holds(s.members[o] + [m]) == r.Plus(Holds(s.members[o]))
    requires t.members == s.members[o := s.members[o] + [m]] && t.graph == s.graph[o := Holds(s.members[o] + [m])]
    requires t.held == Tally(t.graph, t.graph.Keys)
    ensures t.Mirrors() && t.held == r.Plus(s.held) && t.graph == s.graph[o := r.Plus(s.graph[o])]
  {
    hide Holds, Tally;
    assert t.graph.Keys == s.graph.Keys;
    assert s.graph[o] == Holds(s.members[o]);
    TallyUpdate(t.graph, t.graph.Keys, o, s.graph[o], r);
    assert t.graph[o := s.graph[o]] == s.graph;
  }

  lemma PutCounts(s: State, t: State, r: Refs)
    requires s.Counts() && t.held == r.Plus(s.held) && t.members.Keys == s.members.Keys
    requires r.Strong() <= s.outside && r.weak <= s.weakOutside
    requires t.outside == s.outside - r.Strong() && t.weakOutside == s.weakOutside - r.weak
    requires (t.refCount, t.weakCount, t.intact, t.dying) == (s.refCount, s.weakCount, s.intact, s.dying)
    ensures t.Counts()
  {
    hide Refs.Strong;
    MovedIn(s.outside, r, s.held);
    Restored(s.weakOutside, r.weak);
    assert t.held.weak == r.weak + s.held.weak;
    AssociateSums(t.weakOutside, r.weak, s.held.weak);
  }

  lemma AssociateSums(a: multiset<Ref>, b: multiset<Ref>, c: multiset<Ref>)
    ensures a + b + c == a + (b + c)
  {
  }

  /** References that leave the outside for a member are still counted. */
  lemma MovedIn(outside: multiset<Ref>, r: Refs, held: Refs)
    requires r.Strong() <= outside
    ensures (outside - r.Strong()) + r.Plus(held).scanned + r.Plus(held).hidden
      == outside + held.scanned + held.hidden
  {
    var less := outside - r.Strong();
    Restored(outside, r.Strong());
    assert outside == less + (r.scanned + r.hidden);
  }

  lemma Restored(a: multiset<Ref>, b: multiset<Ref>)
    requires b <= a
    ensures (a - b) + b == a
  {
  }

  lemma TakeCounts(s: State, t: State, r: Refs)
    requires s.Counts() && s.held == r.Plus(t.held) && t.members.Keys == s.members.Keys
    requires t.outside == s.outside + r.Strong() && t.weakOutside == s.weakOutside + r.weak
    requires (t.refCount, t.weakCount, t.intact, t.dying) == (s.refCount, s.weakCount, s.intact, s.dying)
    ensures t.Counts()
  {
  }

  lemma TakeMirrors(s: State, t: State, o: Ref, rest: seq<Member>, h: Refs, r: Refs)
    requires s.Mirrors() && o in s.members
    requires h == Holds(rest) && s.graph[o] == r.Plus(h)
    requires t.members == s.members[o := rest] && t.graph == s.graph[o := h]
    requires t.held == Tally(t.graph, t.graph.Keys)
    ensures t.Mirrors() && s.held == r.Plus(t.held)
  {
    hide Holds, Tally;
    assert t.graph.Keys == s.graph.Keys;
    TallyUpdate(s.graph, s.graph.Keys, o, h, r);
  }

  // ---- whole operations -------------------------------------------------------

  lemma DestroyedFreed(s: State, u: State, o: Ref)
    requires s.Wf() && o in s.outside && s.refCount[o] == 1 && Destroyed(s.Doom(o), u, o)
    ensures Freed(s, u, StrongRef(o))
  {
    hide State.Wf, Released, Died, Sealed;
    var t := s.Doom(o);
    Outside(s, o);
    WfKeys(u);
    DestroyedReleased(s, t, u, o);
    assert StrongRef(o).Strong() == multiset{o} && NoRefs().Strong() == multiset{};
    forall C | Sealed(s.graph, C) && Spares(s, StrongRef(o), C) ensures Exactly(s, u, StrongRef(o), C) {
      assert Sealed(t.graph, C);
    }
  }

  lemma EndOfDyingDestroyed(s: State, u: State, o: Ref, gone: Refs)
    requires s.Wf() && o in s.dying && o in s.members
    requires Emptying(s.(destroyed := s.destroyed + {o}), u, o, gone) && |u.members[o]| == 0
    ensures Destroyed(s, u.(dying := u.dying - {o}).LessWeak(o), o)
  {
    hide Holds, Tally, State.Wf, Sealed;
    var t := s.(destroyed := s.destroyed + {o});
    var w := u.(dying := u.dying - {o}).LessWeak(o);
    LessWeakWf(u, u.weakOutside, u.dying - {o}, o);
    StillThere(u, o);
    EndOfDying(t, u, w, o);
    GoneAll(t, u, o, gone);
    forall C | Sealed(s.graph, C) && (o in C ==> o in s.members && |s.members[o]| == 0)
      ensures Exactly(s, w, NoRefs(), C)
    {
      if o in C {
        NoMembers(s, o);
      }
      NothingToSpare(t, u, w, o, C);
    }
  }

  lemma NothingToSpare(s: State, u: State, w: State, o: Ref, C: set<Ref>)
    requires o in s.graph && Sealed(s.graph, C) && (o in C ==> s.graph[o] == NoRefs())
    requires Spares(s, s.graph[o], C) ==> Exactly(s, u, s.graph[o], C)
    requires w.refCount == u.refCount
    ensures Exactly(s, w, NoRefs(), C)
  {
    assert NoRefs().Strong() == multiset{};
    forall x | x in C ensures s.graph[o].Strong()[x] == 0 {
      assert o !in C ==> s.graph[o].Strong() !! multiset(C);
      assert x in multiset(C);
    }
  }

  lemma GoneAll(s: State, t: State, o: Ref, gone: Refs)
    requires Emptying(s, t, o, gone) && |t.members[o]| == 0
    ensures gone == s.graph[o]
  {
    NoMembers(t, o);
    PlusLaws(gone, gone, gone);
  }

  lemma EmptyingStart(s: State, o: Ref)
    requires s.Wf() && o in s.members
    ensures Emptying(s, s, o, NoRefs())
  {
    EmptiedNothing(s, o);
    PlusLaws(s.graph[o], NoRefs(), NoRefs());
  }

  lemma EmptyingNext(s: State, t: State, w: State, o: Ref, gone: Refs)
    requires s.Wf() && o in s.members && Emptying(s, t, o, gone) && |t.members[o]| > 0
    requires (o in t.dying || o in t.outside)
    requires Freed(t.Take(o, 0), w, RefsOf(t.members[o][0].value))
    ensures Emptying(s, w, o, gone.Plus(RefsOf(t.members[o][0].value)))
    ensures w.dying == t.dying && w.outside == t.outside
    ensures o in w.members && |w.members[o]| < |t.members[o]|
  {
    hide Holds, Tally, RefsOf, State.Wf;
    WfKeys(t);
    var u := t.Take(o, 0);
    var r := RefsOf(t.members[o][0].value);
    TakeWf(t, o, 0);
    DroppedApart(t, u, w, o, r);
    ApartTrans(s, t, w, o);
    StillThere(t, o);
    StillThere(w, o);
    PlusLaws(gone, r, u.graph[o]);
    assert w.graph[o] == u.graph[o] && w.members[o] == u.members[o] by { assert KeptMembers(u, w, o); }
    forall C | Sealed(s.graph, C) && Spares(s, s.graph[o], C) ensures Exactly(s, w, gone.Plus(r), C) {
      EmptyingExactly(s, t, u, w, o, gone, r, C);
    }
  }

  lemma EmptyingExactly(s: State, t: State, u: State, w: State, o: Ref, gone: Refs, r: Refs, C: set<Ref>)
    requires s.Wf() && t.Wf() && o in s.members && Emptying(s, t, o, gone) && |t.members[o]| > 0
    requires u == t.Take(o, 0) && u.Wf() && t.graph[o] == r.Plus(u.graph[o]) && o in u.members
    requires Freed(u, w, r) && Sealed(s.graph, C) && Spares(s, s.graph[o], C)
    ensures Exactly(s, w, gone.Plus(r), C)
  {
    hide State.Wf, Released, RefsOf, Holds, Tally, Sealed;
    PlusLaws(gone, r, u.graph[o]);
    StrongPlus(gone.Plus(r), u.graph[o]);
    StillSealed(s, u, o, C);
    forall x | x in C && x in u.members && x in s.graph[o].Strong()
      ensures x in s.members && (|s.members[x]| == 0 ==> |u.members[x]| == 0)
    {
      if x == o {
        if |s.members[o]| == 0 {
          NoMembers(s, o);
        }
      } else {
        assert KeptMembers(s, t, x);
        if |s.members[x]| == 0 {
          StillEmpty(s, u, x);
        }
      }
    }
    StillSpares(s, u, gone, r, u.graph[o], s.graph[o], C);
    ExactlyTrans(s, u, w, gone, r, C);
  }

  /** The list of values `all` is freed from the first: `r` comes next, `rest` after it. */
  lemma FreeingOne(s: State, t: State, gone: Refs, r: Refs, rest: Refs, all: Refs)
    requires s.Wf() && all == gone.Plus(r.Plus(rest)) && Freeing(s, t, gone, all)
    requires all.Strong() <= s.outside && all.weak <= s.weakOutside
    ensures t.Wf() && r.Strong() <= t.outside && r.weak <= t.weakOutside
  {
    hide State.Wf;
    assert forall x :: all.Strong()[x] == gone.Strong()[x] + r.Strong()[x] + rest.Strong()[x];
  }

  lemma FreeingNext(s: State, t: State, u: State, gone: Refs, r: Refs, rest: Refs, all: Refs)
    requires s.Wf() && all == gone.Plus(r.Plus(rest)) && Freeing(s, t, gone, all) && Freed(t, u, r)
    ensures Freeing(s, u, gone.Plus(r), all)
  {
    hide State.Wf, Released, Sealed, Spares, Exactly;
    ReleasedTrans(s, t, u, gone, r);
    forall C | Sealed(s.graph, C) && Spares(s, all, C) ensures Exactly(s, u, gone.Plus(r), C) {
      FreeingExactly(s, t, gone, r, rest, all, C);
      ExactlyTrans(s, t, u, gone, r, C);
    }
  }

  lemma FreeingExactly(s: State, t: State, gone: Refs, r: Refs, rest: Refs, all: Refs, C: set<Ref>)
    requires s.Wf() && all == gone.Plus(r.Plus(rest)) && t.Wf() && Released(s, t, gone)
    requires Sealed(s.graph, C) && Spares(s, all, C) && Exactly(s, t, gone, C)
    ensures Sealed(t.graph, C) && Spares(t, r, C)
  {
    hide State.Wf, Sealed, Spares, Exactly, Settled;
    var o := Ref(0);
    if o in t.graph {
      KeptGraph(s, t, o);
    }
    StillSealed(s, t, o, C);
    forall x | x in C && x in t.members && x in all.Strong()
      ensures x in s.members && (|s.members[x]| == 0 ==> |t.members[x]| == 0)
    {
      assert KeptMembers(s, t, x);
      if |s.members[x]| == 0 {
        StillEmpty(s, t, x);
      }
    }
    StillSpares(s, t, gone, r, rest, all, C);
  }

  lemma FreeingNothing(s: State, all: Refs)
    requires s.Wf()
    ensures Freeing(s, s, NoRefs(), all) && Freed(s, s, NoRefs())
  {
    WfKeys(s);
    ReleasedNothing(s);
  }

  // ---- what single facts the operations need ------------------------------------

  lemma Outside(s: State, o: Ref)
    requires s.Wf() && o in s.outside
    ensures o in s.refCount && o in s.members && o in s.intact
  {
    assert o in s.weakCount;
  }

  lemma UpgradeFacts(s: State, o: Ref)
    requires s.Wf() && o in s.weakOutside
    ensures o in s.intact <==> s.refCount[o] > 0 && o !in s.destroyed
  {
  }

  lemma WeakOutside(s: State, o: Ref)
    requires s.Wf() && o in s.weakOutside
    ensures o in s.weakCount && o in s.members
  {
  }

  lemma Emptied1(s: State, t: State, o: Ref, gone: Refs)
    requires Emptying(s, t, o, gone) && o in s.dying
    ensures o in t.weakCount && o in t.members && o in t.dying && s.destroyed <= t.destroyed
  {
  }

  lemma EmptyingWf(s: State, t: State, o: Ref, gone: Refs)
    requires Emptying(s, t, o, gone)
    ensures t.Wf()
  {
  }

  lemma FreeingAll(s: State, t: State, gone: Refs, all: Refs)
    requires Freeing(s, t, gone, all) && gone.Plus(NoRefs()) == all
    ensures Freed(s, t, all)
  {
    PlusLaws(gone, gone, gone);
  }
}
