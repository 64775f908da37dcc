// Whole runs on the object heap: a member comes back by its name, and a cycle is collected.

module HeapRuns {
  import opened Base
  import opened Values
  import opened RefGraph
  import opened HeapState
  import opened Objects
  import opened Tracking
  import opened Collector
  import opened Runtime

  /** A value stored under a fresh name is found under that name and no other member is touched: a second
      one of that name is refused, the value comes back, and then there is none. */
  method StoreAndRemove(h: Heap, p: Ref, name: string, v: Value)
    returns (added: int, again: int, removed: int, w: Value, missing: int)
    requires Idle(h) && p in h.intact && Valid(h.St(), RefsOf(v)) && !v.Nil?
    requires p in h.members && forall m :: m in h.members[p] ==> m.name != name
    modifies h
    ensures Idle(h) && h.members == old(h.members)
    ensures added == 0 && again == -17 && removed == 0 && w == v && missing == -2
  {
    hide Idle, Valid, RefsOf;
    ghost var ms := h.members[p];
    added, again := StoreTwice(h, p, name, v);
    removed, w, missing := RemoveTwice(h, p, name, ms, v);
    assert h.members == old(h.members)[p := ms];
  }

  method StoreTwice(h: Heap, p: Ref, name: string, v: Value) returns (added: int, again: int)
    requires Idle(h) && p in h.intact && Valid(h.St(), RefsOf(v)) && !v.Nil?
    requires p in h.members && forall m :: m in h.members[p] ==> m.name != name
    modifies h
    ensures Idle(h) && added == 0 && again == -17 && p in h.intact
    ensures h.members == old(h.members)[p := old(h.members)[p] + [Member(name, v)]]
  {
    hide Idle, State.Wf, State.GainAll, State.Put, Tracked, Freed, RefsOf;
    FoundLast(h.members[p], Member(name, v));
    added := AddMemberClone(h, p, Some(name), v);
    again := AddMemberClone(h, p, Some(name), v);
  }

  method RemoveTwice(h: Heap, p: Ref, name: string, ghost ms: seq<Member>, ghost v: Value)
    returns (removed: int, w: Value, missing: int)
    requires Idle(h) && p in h.intact && p in h.members && h.members[p] == ms + [Member(name, v)]
    requires forall m :: m in ms ==> m.name != name
    modifies h
    ensures Idle(h) && h.members == old(h.members)[p := ms] && removed == 0 && w == v && missing == -2
  {
    hide Idle, State.Wf, State.Take, Tracked, RefsOf;
    FoundLast(ms, Member(name, v));
    removed, w := RemoveMember(h, p, name);
    assert h.members[p] == ms;
    var lost;
    missing, lost := RemoveMember(h, p, name);
  }

  lemma FoundLast(ms: seq<Member>, m: Member)
    requires forall k :: k in ms ==> k.name != m.name
    ensures IndexOf(ms + [m], m.name) == |ms|
  {
    var more := ms + [m];
    assert more[|ms|] == m && forall k :: 0 <= k < |ms| ==> more[k] == ms[k];
  }

  /** Without references from outside, and none hidden from the collector, a collection leaves
      nothing at all. */
  lemma NothingLeft(s: State, t: State)
    requires s.Wf() && t.Wf() && s.dying == {} && t.dying == {} && Survived(s, t)
    requires s.outside == multiset{} && s.weakOutside == multiset{} && s.held.hidden == multiset{}
    requires forall y :: y in t.intact ==> ReachFrom(t.graph, Anchors(t), y)
    ensures t.members == map[]
  {
    hide State.Wf, Reach;
    StillHidden(s, t);
    assert Anchors(t) == {};
    assert t.intact == {};
    forall x ensures x !in t.members {
      NoneHeld(t, x);
    }
  }

  /** Without intact objects nobody holds anything. */
  lemma NoneHeld(t: State, x: Ref)
    requires t.Wf() && t.intact == {} && t.dying == {} && t.weakOutside == multiset{}
    ensures x !in t.weakCount && x !in t.members
  {
    hide Tally, Holds;
    TallyIn(t.graph, t.graph.Keys, x);
    forall y | y in t.graph ensures x !in t.graph[y].weak {
      NoMembers(t, y);
    }
  }

  method TwoObjects(a: Ref, b: Ref) returns (h: Heap)
    requires a != b
    ensures fresh(h) && Idle(h) && Tracked(h.St()) && h.outside == multiset{a, b} && h.weakOutside == multiset{}
    ensures h.members == map[a := [], b := []] && h.intact == {a, b} && h.refCount[a] == h.refCount[b] == 1
  {
    hide Idle, State.Wf, Tracked, IsNew;
    h := Start();
    NewObject(h, a);
    NewObject(h, b);
  }

  /** Two objects that hold each other. */
  method CycleMade(a: Ref, b: Ref) returns (h: Heap)
    requires a != b
    ensures fresh(h) && Idle(h) && Tracked(h.St()) && h.outside == multiset{a, b} && h.weakOutside == multiset{}
    ensures h.members == map[a := [Member("next", Object(b))], b := [Member("next", Object(a))]]
    ensures h.refCount[a] == h.refCount[b] == 2
  {
    hide Idle, State.Wf, State.GainAll, State.Put, Tracked, RefsOf, Valid;
    h := TwoObjects(a, b);
    ObjectValid(h.St(), b);
    assert forall m: Member :: [] + [m] == [m];
    assert IndexOf([], "next") == 0;
    var rc := AddMemberClone(h, a, Some("next"), Object(b));
    assert h.members == map[a := [Member("next", Object(b))], b := []];
    ObjectValid(h.St(), a);
    rc := AddMemberClone(h, b, Some("next"), Object(a));
  }

  lemma ObjectValid(s: State, o: Ref)
    requires o in s.intact
    ensures Valid(s, RefsOf(Object(o))) && RefsOf(Object(o)) == Refs(multiset{o}, multiset{}, multiset{})
  {
  }

  /** The program gives both up. */
  method CycleDropped(a: Ref, b: Ref) returns (h: Heap)
    requires a != b
    ensures fresh(h) && Idle(h) && Tracked(h.St()) && h.outside == multiset{} && h.weakOutside == multiset{}
    ensures h.members == map[a := [Member("next", Object(b))], b := [Member("next", Object(a))]]
  {
    hide Idle, State.Wf, Tracked, Freed;
    h := CycleMade(a, b);
    Unref(h, a);
    Unref(h, b);
  }

  /** Both are there until the collector runs, and nothing is there when it has. */
  method CycleCollected(a: Ref, b: Ref) returns (h: Heap, before: map<Ref, seq<Member>>)
    requires a != b
    ensures Idle(h) && h.members == map[]
    ensures before == map[a := [Member("next", Object(b))], b := [Member("next", Object(a))]]
  {
    hide State.Wf, Tracked, Survived, Undisturbed, Anchors, ReachFrom;
    h := CycleDropped(a, b);
    before := h.members;
    ghost var s := h.St();
    NothingHidden(s);
    Collect(h);
    NothingLeft(s, h.St());
  }

  /** Where all members are plain references, none is hidden. */
  lemma NothingHidden(s: State)
    requires s.Wf() && forall o :: o in s.members ==> |s.members[o]| == 1 && s.members[o][0].value.Object?
    ensures s.held.hidden == multiset{}
  {
    hide Tally;
    forall x ensures x !in s.held.hidden {
      TallyIn(s.graph, s.graph.Keys, x);
      forall y | y in s.graph ensures x !in s.graph[y].hidden {
        PlainHolds(s, y);
      }
    }
  }

  lemma PlainHolds(s: State, y: Ref)
    requires s.Wf() && y in s.members && |s.members[y]| == 1 && s.members[y][0].value.Object?
    ensures y in s.graph && s.graph[y] == Refs(multiset{s.members[y][0].value.obj}, multiset{}, multiset{})
  {
    hide Tally;
    var ms := s.members[y];
    assert s.graph[y] == Holds(ms);
    RefsOfConcat(Data(ms), []);
    RefsOfIs(ms[0].value);
  }

  /** With a reference from outside to one of them, both stay as they are. */
  method HeldCycleStays(a: Ref, b: Ref) returns (h: Heap)
    requires a != b
    ensures Idle(h) && h.outside == multiset{a} && {a, b} <= h.intact && {a, b} <= h.members.Keys
    ensures h.members[a] == [Member("next", Object(b))] && h.members[b] == [Member("next", Object(a))]
  {
    hide State.Wf, Tracked, Survived, Undisturbed, Anchors, Reach, ReachFrom, StrongGraph, Freed;
    h := CycleMade(a, b);
    Unref(h, b);
    ghost var s := h.St();
    HeldReached(s, a, b);
    Collect(h);
  }

  lemma HeldReached(s: State, a: Ref, b: Ref)
    requires s.Wf() && s.members == map[a := [Member("next", Object(b))], b := [Member("next", Object(a))]]
    ensures Reach(StrongGraph(s.graph), a, a) && Reach(StrongGraph(s.graph), a, b)
  {
    hide State.Wf, Reach;
    PlainHolds(s, a);
    PlainHolds(s, b);
    ReachSelf(StrongGraph(s.graph), a);
    ReachEdge(StrongGraph(s.graph), a, b);
  }

  // ---- what the collector's graph is --------------------------------------------------------------

  /** A list of values holds what one of them holds. */
  lemma {:induction false} HeldByOne(vs: seq<Value>, y: Ref)
    ensures y in RefsOfAll(vs).scanned <==> exists i :: 0 <= i < |vs| && y in RefsOf(vs[i]).scanned
  {
    if vs != [] {
      HeldByOne(vs[1..], y);
      if y in RefsOfAll(vs[1..]).scanned {
        var i :| 0 <= i < |vs[1..]| && y in RefsOf(vs[1..][i]).scanned;
        assert vs[i + 1] == vs[1..][i];
      }
      if i :| 0 < i < |vs| && y in RefsOf(vs[i]).scanned {
        assert vs[1..][i - 1] == vs[i];
      }
    }
  }

  /** There is an edge where the value of a member holds a reference that the collector follows. */
  lemma EdgeMeans(s: State, x: Ref, y: Ref)
    requires s.Wf()
    ensures Edge(s.graph, x, y) <==>
      && x in s.members && y in s.members
      && exists i :: 0 <= i < |s.members[x]| && y in RefsOf(s.members[x][i].value).scanned
  {
    hide Tally, RefsOf, RefsOfAll;
    if x in s.members {
      var ms := s.members[x];
      assert s.graph[x] == Holds(ms);
      HeldByOne(Data(ms), y);
      if i :| 0 <= i < |ms| && y in RefsOf(ms[i].value).scanned {
        assert Data(ms)[i] == ms[i].value;
      }
    }
  }

  /** A collection of a heap whose garbage is tracked and in which nothing is hidden leaves exactly what
      a reference from outside leads to. */
  method CollectsGarbage(h: Heap)
    requires Idle(h) && Tracked(h.St()) && h.held.hidden == multiset{}
    modifies h
    ensures Idle(h)
    ensures forall x :: x in h.intact <==>
      x in old(h.intact) && exists a :: a in old(h.outside) && Reach(old(h.graph), a, x)
  {
    hide State.Wf, Tracked, Survived, Undisturbed, Anchors, Reach, ReachFrom, StrongGraph;
    ghost var s := h.St();
    Collect(h);
    forall x | x in s.intact ensures x in h.intact <==> exists a :: a in s.outside && Reach(s.graph, a, x) {
      CollectExact(s, h.St(), x);
    }
  }
}
