// What a program does with objects between collections: every operation keeps the
// heap consistent and all garbage tracked.

module Runtime {
  import opened Base
  import opened Values
  import opened RefGraph
  import opened HeapState
  import opened Objects
  import opened Reaping
  import opened Tracking
  import opened Collector

  const EINVAL := 22
  const ENOENT := 2
  const EEXIST := 17

  // ---- references ----------------------------------------------------------------

  /** A thread starts without objects. */
  method Start() returns (h: Heap)
    ensures fresh(h) && Idle(h) && Tracked(h.St()) && h.members == map[] && h.intact == {}
    ensures h.unreferred == {} && h.outside == multiset{} && h.weakOutside == multiset{}
  {
    h := new Heap();
    assert h.St().Counts();
    assert h.St().Mirrors();
  }

  /** `di_new_object` at the free address `o`. */
  method NewObject(h: Heap, o: Ref)
    requires Idle(h) && o !in h.members
    modifies h
    ensures Idle(h) && (Tracked(old(h.St())) ==> Tracked(h.St()))
    ensures IsNew(old(h.St()), h.St(), o)
    ensures h.members == old(h.members)[o := []] && h.refCount == old(h.refCount)[o := 1]
    ensures h.weakCount == old(h.weakCount)[o := 1] && h.outside == old(h.outside) + multiset{o}
    ensures h.unreferred == old(h.unreferred) && h.weakOutside == old(h.weakOutside) && h.intact == old(h.intact) + {o}
  {
    hide State.Wf, Tracked;
    ghost var s := h.St();
    h.Allocate(o);
    NewWf(s, h.St(), o);
    NewTracked(s, h.St(), o);
  }

  lemma NewWf(s: State, t: State, o: Ref)
    requires s.Wf() && o !in s.members && IsNew(s, t, o)
    ensures t.Wf()
  {
    hide Tally;
    NewMirrors(s, t, o);
    NewCounts(s, t, o);
  }

  lemma NewCounts(s: State, t: State, o: Ref)
    requires s.Counts() && o !in s.members && IsNew(s, t, o)
    ensures t.Counts()
  {
    assert o !in s.weakCount;
    assert o !in s.intact + s.dying;
    OneMore(s.refCount, t.refCount, o);
    OneMore(s.weakCount, t.weakCount, o);
    OneMoreIntact(s.intact, s.dying, o);
  }

  lemma OneMoreIntact(intact: set<Ref>, dying: set<Ref>, o: Ref)
    requires o !in intact + dying
    ensures multiset(intact + {o} + dying) == multiset(intact + dying) + multiset{o}
  {
    assert intact + {o} + dying == intact + dying + {o};
  }

  lemma OneMore(a: multiset<Ref>, b: multiset<Ref>, o: Ref)
    requires o !in a && b == a[o := 1]
    ensures b == a + multiset{o}
  {
  }

  lemma NewMirrors(s: State, t: State, o: Ref)
    requires s.Mirrors() && o !in s.members
    requires t.members == s.members[o := []] && t.graph == s.graph[o := NoRefs()] && t.held == s.held
    ensures t.Mirrors()
  {
    hide Tally, Holds;
    NothingHeld();
    NewTally(s.graph, o);
  }

  lemma NothingHeld()
    ensures Holds([]) == NoRefs()
  {
  }

  lemma NewTally(g: Graph, o: Ref)
    requires o !in g
    ensures var h := g[o := NoRefs()]; Tally(h, h.Keys) == Tally(g, g.Keys)
  {
    hide Tally;
    var h := g[o := NoRefs()];
    TallyTake(h, h.Keys, o);
    assert h.Keys - {o} == g.Keys;
    TallySame(g, h, g.Keys);
    PlusLaws(Tally(g, g.Keys), NoRefs(), NoRefs());
  }

  lemma NewTracked(s: State, t: State, o: Ref)
    requires s.Wf() && t.Wf() && o !in s.members && IsNew(s, t, o)
    ensures Tracked(s) ==> Tracked(t)
  {
    hide State.Wf;
    assert o !in s.graph by { WfKeys(s); }
    if Tracked(s) {
      Rooted(t, Anchors(t) + t.unreferred, o);
      GrownTracked(s, t);
    }
  }

  /** More edges and more anchors keep everything tracked that was. */
  lemma GrownTracked(s: State, t: State)
    requires s.Wf() && t.Wf() && Tracked(s) && s.unreferred <= t.unreferred && Anchors(s) <= Anchors(t)
    requires forall x, y :: Edge(s.graph, x, y) ==> Edge(t.graph, x, y)
    requires forall x :: x in t.intact && x !in s.intact ==> ReachFrom(t.graph, Anchors(t) + t.unreferred, x)
    ensures Tracked(t)
  {
    hide State.Wf, Anchors, Edge;
    forall x | x in t.intact && x in s.intact ensures ReachFrom(t.graph, Anchors(t) + t.unreferred, x) {
      assert ReachFrom(s.graph, Anchors(s) + s.unreferred, x);
      var a :| a in Anchors(s) + s.unreferred && Reach(s.graph, a, x);
      IntactCounted(t, x);
      ReachGrown(s.graph, t.graph, a, x);
    }
  }

  lemma ReachGrown(g: Graph, h: Graph, a: Ref, x: Ref)
    requires Reach(g, a, x) && forall x, y :: Edge(g, x, y) ==> Edge(h, x, y)
    requires x in h
    ensures Reach(h, a, x)
  {
    var p :| IsPath(g, p) && p[0] == a && p[|p| - 1] == x;
    forall i | 0 <= i < |p| ensures p[i] in h {
      if i < |p| - 1 {
        assert Edge(g, p[i], p[i + 1]);
        assert Edge(h, p[i], p[i + 1]);
      }
    }
    assert IsPath(h, p);
  }

  lemma GainTracked(s: State, r: Refs)
    requires s.Wf() && s.GainAll(r).Wf() && Tracked(s)
    ensures Tracked(s.GainAll(r))
  {
    hide State.Wf, Reach;
    GrownTracked(s, s.GainAll(r));
  }

  lemma FreedTracked(s: State, t: State, gone: Refs)
    requires s.Wf() && Freed(s, t, gone) && s.dying == {} && s.isolated == {}
    requires forall x :: x in s.intact ==> s.mark[x] == 0
    ensures Tracked(s) ==> Tracked(t)
    ensures t.Wf() && t.dying == {} && t.isolated == {} && t.mark == s.mark && t.intact <= s.intact
  {
    hide State.Wf, Tracked, Spares, Exactly, Sealed;
    ReleasedLoss(s, t, gone);
    if Tracked(s) {
      LossTracked(s, t);
    }
  }

  /** `di_ref_object`. */
  method RefObject(h: Heap, o: Ref)
    requires Idle(h) && o in h.intact
    modifies h`refCount, h`outside
    ensures Idle(h) && (Tracked(old(h.St())) ==> Tracked(h.St()))
    ensures h.St() == old(h.St()).Gain(o)
    ensures h.refCount == old(h.refCount)[o := old(h.refCount)[o] + 1]
  {
    hide State.Wf, Tracked;
    ghost var s := h.St();
    h.RefObject(o);
    GainOne(s, o);
    if Tracked(s) {
      GainTracked(s, StrongRef(o));
    }
  }

  /** `di_unref_object`. */
  method Unref(h: Heap, o: Ref)
    requires Idle(h) && o in h.outside
    modifies h
    ensures Idle(h) && (Tracked(old(h.St())) ==> Tracked(h.St()))
    ensures Freed(old(h.St()), h.St(), StrongRef(o))
    ensures old(h.refCount)[o] > 1 ==>
      && h.refCount == old(h.refCount)[o := old(h.refCount)[o] - 1] && h.members == old(h.members)
      && h.weakCount == old(h.weakCount) && h.unreferred == old(h.unreferred) + {o} && h.intact == old(h.intact)
    ensures old(h.refCount)[o] == 1 ==>
      o !in h.intact && o in h.destroyed && (o in h.members ==> h.members[o] == [])
    ensures forall x :: x in h.intact ==>
      && x in old(h.members) && x in h.members && h.members[x] == old(h.members)[x]
      && (x in h.unreferred <==> x in old(h.unreferred) || h.refCount[x] < old(h.refCount)[x])
    ensures h.outside == old(h.outside) - multiset{o} && h.weakOutside == old(h.weakOutside)
  {
    hide State.Wf, Tracked, Freed;
    ghost var s := h.St();
    IdleIntact(h, o);
    h.Unref(o);
    FreedTracked(s, h.St(), StrongRef(o));
    FreedIs(s, h.St(), StrongRef(o));
    FreedOutside(s, h.St(), o);
  }

  /** `di_weakly_ref_object`. */
  method WeaklyRef(h: Heap, o: Ref)
    requires Idle(h) && o in h.members
    modifies h`weakCount, h`weakOutside
    ensures Idle(h) && (Tracked(old(h.St())) ==> Tracked(h.St()))
    ensures h.St() == old(h.St()).GainWeak(o)
    ensures h.weakCount == old(h.weakCount)[o := old(h.weakCount)[o] + 1]
  {
    hide State.Wf, Tracked;
    ghost var s := h.St();
    h.WeaklyRef(o);
    GainOne(s, o);
    if Tracked(s) {
      GainTracked(s, WeakRef(o));
    }
  }

  /** `di_drop_weak_ref`. */
  method DropWeak(h: Heap, o: Ref)
    requires Idle(h) && o in h.weakOutside
    modifies h`weakCount, h`weakOutside, h`members, h`graph
    ensures Idle(h) && (Tracked(old(h.St())) ==> Tracked(h.St()))
    ensures Freed(old(h.St()), h.St(), WeakRef(o))
    ensures h.weakCount == old(h.weakCount)[o := old(h.weakCount)[o] - 1] && old(h.weakCount)[o] > 0
    ensures h.members == if old(h.weakCount)[o] == 1 then old(h.members) - {o} else old(h.members)
  {
    hide State.Wf, Tracked, Freed;
    ghost var s := h.St();
    h.DropWeak(o);
    FreedTracked(s, h.St(), WeakRef(o));
  }

  /** `di_upgrade_weak_ref`, between collections. */
  method Upgrade(h: Heap, o: Ref) returns (ok: bool)
    requires Idle(h) && o in h.weakOutside
    modifies h`refCount, h`outside
    ensures Idle(h) && (Tracked(old(h.St())) ==> Tracked(h.St()))
    ensures ok <==> o in h.intact
    ensures h.St() == if ok then old(h.St()).Gain(o) else old(h.St())
    ensures h.refCount == if ok then old(h.refCount)[o := old(h.refCount)[o] + 1] else old(h.refCount)
  {
    hide State.Wf, Tracked;
    ghost var s := h.St();
    ok := h.Upgrade(o);
    if ok {
      GainOne(s, o);
      if Tracked(s) {
        GainTracked(s, StrongRef(o));
      }
    }
  }

  lemma FreedOutside(s: State, t: State, o: Ref)
    requires Freed(s, t, StrongRef(o))
    ensures t.outside == s.outside - multiset{o} && t.weakOutside == s.weakOutside
  {
    hide State.Wf, Settled, Sealed, Spares, Exactly;
    assert StrongRef(o).Strong() == multiset{o};
  }

  lemma IdleIntact(h: Heap, o: Ref)
    requires Idle(h) && o in h.outside
    ensures o in h.intact && h.mark[o] == 0 && h.isolated == {} && h.refCount[o] > 0
  {
    Outside(h.St(), o);
  }

  // ---- members -------------------------------------------------------------------

  /** `di_lookup`: the position of the member called `name`, or one past the end. */
  function IndexOf(members: seq<Member>, name: string): (i: nat)
    ensures i <= |members| && (i < |members| ==> members[i].name == name)
    ensures forall k :: 0 <= k < i ==> members[k].name != name
  {
    if members == [] || members[0].name == name then 0 else 1 + IndexOf(members[1..], name)
  }

  /** `di_add_member_clone`: a new member holding references of its own.  A value of size
      zero is refused.  Where the name is taken, the copy is freed again.  Where there is
      no name, the copy is lost: the references it took are never given up. */
  method AddMemberClone(h: Heap, p: Ref, name: Option<string>, v: Value) returns (rc: int)
    requires Idle(h) && p in h.intact && Valid(h.St(), RefsOf(v))
    modifies h
    ensures Idle(h) && (Tracked(old(h.St())) ==> Tracked(h.St()))
    ensures v.Nil? ==> rc == -EINVAL && h.St() == old(h.St())
    ensures !v.Nil? && name.None? ==> rc == -EINVAL && h.St() == old(h.St()).GainAll(RefsOf(v))
    ensures !v.Nil? && name.Some? && IndexOf(old(h.members)[p], name.value) < |old(h.members)[p]| ==>
      rc == -EEXIST && h.members == old(h.members) && h.refCount == old(h.refCount) && h.weakCount == old(h.weakCount)
    ensures !v.Nil? && name.Some? && IndexOf(old(h.members)[p], name.value) == |old(h.members)[p]| ==>
      rc == 0 && h.St() == old(h.St()).GainAll(RefsOf(v)).Put(p, Member(name.value, v))
    ensures p in old(h.members) && (rc != 0 ==> h.members == old(h.members))
    ensures rc == 0 ==>
      && name.Some? && h.members == old(h.members)[p := old(h.members)[p] + [Member(name.value, v)]]
      && h.outside == old(h.outside) && h.weakOutside == old(h.weakOutside)
    ensures (rc == 0 || rc == -22) && !v.Nil? ==>
      forall x :: h.refCount[x] == old(h.refCount)[x] + RefsOf(v).scanned[x] + RefsOf(v).hidden[x]
    ensures h.intact == old(h.intact) && (rc == 0 ==> h.unreferred == old(h.unreferred))
  {
    hide State.Wf, State.GainAll, State.Put, Tracked, Freed, Valid, RefsOf;
    ghost var s, r := h.St(), RefsOf(v);
    GainAllIs(s, r);
    IntactCounted(s, p);
    if v.Nil? {
      return -EINVAL;
    }
    h.CopyValue(v);
    ghost var t := h.St();
    GainedOutside(s, r);
    if Tracked(s) {
      GainTracked(s, r);
    }
    if name.None? {
      return -EINVAL;
    }
    if IndexOf(h.members[p], name.value) < |h.members[p]| {
      h.FreeValue(v);
      FreedTracked(t, h.St(), r);
      CopyFreed(s, h.St(), r);
      return -EEXIST;
    }
    h.PutMember(p, Member(name.value, v));
    PutTracked(s, r, p, Member(name.value, v));
    return 0;
  }

  lemma GainedOutside(s: State, r: Refs)
    ensures s.GainAll(r).members == s.members && s.GainAll(r).intact == s.intact
    ensures s.GainAll(r).mark == s.mark && s.GainAll(r).dying == s.dying && s.GainAll(r).isolated == s.isolated
    ensures r.Strong() <= s.GainAll(r).outside && r.weak <= s.GainAll(r).weakOutside
  {
  }

  /** Storing a copy only adds edges: what was outside still is. */
  lemma PutTracked(s: State, r: Refs, p: Ref, m: Member)
    requires s.Wf() && s.GainAll(r).Wf() && p in s.intact && p in s.members && r == RefsOf(m.value)
    ensures Tracked(s) ==> Tracked(s.GainAll(r).Put(p, m))
    ensures var u := s.GainAll(r).Put(p, m);
      && u.outside == s.outside && u.weakOutside == s.weakOutside && u.unreferred == s.unreferred
      && u.intact == s.intact && u.refCount == s.GainAll(r).refCount
  {
    hide State.Wf, Reach, RefsOf, Holds, Tally;
    var t := s.GainAll(r);
    var u := t.Put(p, m);
    WfKeys(s);
    GainedOutside(s, r);
    PutWf(t, p, m);
    assert u.outside == s.outside;
    if Tracked(s) {
      GrownTracked(s, u);
    }
  }

  /** `di_remove_member_raw`: the member is taken out and handed to the caller. */
  method RemoveMember(h: Heap, p: Ref, name: string) returns (rc: int, v: Value)
    requires Idle(h) && p in h.intact
    modifies h`members, h`graph, h`held, h`outside, h`weakOutside
    ensures Idle(h) && (Tracked(old(h.St())) ==> Tracked(h.St()))
    ensures p in old(h.members)
    ensures var i := IndexOf(old(h.members)[p], name);
      if i == |old(h.members)[p]| then rc == -ENOENT && h.St() == old(h.St())
      else rc == 0 && v == old(h.members)[p][i].value && h.St() == old(h.St()).Take(p, i)
    ensures rc == 0 ==> RefsOf(v).Strong() <= h.outside && RefsOf(v).weak <= h.weakOutside
    ensures rc == 0 ==> exists i ::
      && 0 <= i < |old(h.members)[p]| && old(h.members)[p][i] == Member(name, v)
      && h.members == old(h.members)[p := old(h.members)[p][..i] + old(h.members)[p][i + 1..]]
    ensures rc != 0 ==> rc == -2 && forall m :: m in old(h.members)[p] ==> m.name != name
  {
    hide State.Wf, Tracked;
    ghost var s := h.St();
    IntactCounted(s, p);
    var i := IndexOf(h.members[p], name);
    if i == |h.members[p]| {
      return -ENOENT, Plain;
    }
    v := h.TakeMember(p, i);
    TakeTracked(s, p, i);
    return 0, v;
  }

  /** What is taken out is outside now, so it is an anchor. */
  lemma TakeTracked(s: State, p: Ref, i: nat)
    requires s.Wf() && s.dying == {} && p in s.members && i < |s.members[p]| && s.Take(p, i).Wf()
    ensures Tracked(s) ==> Tracked(s.Take(p, i))
  {
    hide State.Wf, Reach, RefsOf, Holds, Tally, Without;
    var t := s.Take(p, i);
    TakeWf(s, p, i);
    var r := RefsOf(s.members[p][i].value);
    if Tracked(s) {
      forall x | x in t.intact ensures ReachFrom(t.graph, Anchors(t) + t.unreferred, x) {
        TakenReached(s, t, p, r, x);
      }
    }
  }

  lemma TakenReached(s: State, t: State, p: Ref, r: Refs, x: Ref)
    requires s.Wf() && t.Wf() && t.dying == {} && Tracked(s) && p in s.graph && p in t.graph
    requires s.graph[p] == r.Plus(t.graph[p])
    requires t.graph == s.graph[p := t.graph[p]] && t.intact == s.intact && t.unreferred == s.unreferred
    requires t.outside == s.outside + r.Strong() && t.refCount == s.refCount && x in t.intact
    requires s.held == r.Plus(t.held)
    ensures ReachFrom(t.graph, Anchors(t) + t.unreferred, x)
  {
    hide State.Wf, Reach, Anchors;
    var roots := Anchors(t) + t.unreferred;
    var a :| a in Anchors(s) + s.unreferred && Reach(s.graph, a, x);
    var D := set z | z in s.graph && (z in t.intact ==> ReachFrom(t.graph, roots, z));
    ReachIn(s.graph, a, x);
    if a in t.intact {
      TakenAnchor(s, t, r, a);
      Rooted(t, roots, a);
    }
    forall z, w | z in D && w in s.graph && Edge(s.graph, z, w) ensures w in D {
      if w in t.intact {
        if Edge(t.graph, z, w) {
          HolderIntact(t, z, w);
          var n :| n in roots && Reach(t.graph, n, z);
          ReachEdge(t.graph, z, w);
          ReachTrans(t.graph, n, z, w);
        } else {
          TakenAnchor(s, t, r, w);
          Rooted(t, roots, w);
        }
      }
    }
    ReachClosed(s.graph, D, a, x);
  }

  lemma TakenAnchor(s: State, t: State, r: Refs, a: Ref)
    requires s.Wf() && t.Wf() && t.intact == s.intact && t.refCount == s.refCount && a in t.intact
    requires t.outside == s.outside + r.Strong() && s.held == r.Plus(t.held)
    requires a in Anchors(s) + s.unreferred || a in r.scanned
    ensures a in Anchors(t) + s.unreferred
  {
  }

  /** `di_delete_member_raw`. */
  method DeleteMember(h: Heap, p: Ref, name: string) returns (rc: int)
    requires Idle(h) && p in h.intact
    modifies h
    ensures Idle(h) && (Tracked(old(h.St())) ==> Tracked(h.St()))
    ensures p in old(h.members)
    ensures var i := IndexOf(old(h.members)[p], name);
      if i == |old(h.members)[p]| then rc == -ENOENT && h.St() == old(h.St())
      else rc == 0 && Freed(old(h.St()).Take(p, i), h.St(), RefsOf(old(h.members)[p][i].value))
    ensures rc == 0 ==> exists i ::
      && 0 <= i < |old(h.members)[p]| && old(h.members)[p][i].name == name
      && (p in h.intact ==>
            p in h.members && h.members[p] == old(h.members)[p][..i] + old(h.members)[p][i + 1..])
    ensures rc == 0 ==> forall x :: x in h.intact && x != p ==>
      x in old(h.members) && x in h.members && h.members[x] == old(h.members)[x]
    ensures rc != 0 ==> rc == -2 && forall m :: m in old(h.members)[p] ==> m.name != name
  {
    hide State.Wf, Tracked, Freed, RefsOf, State.Take;
    var v;
    ghost var s := h.St();
    rc, v := RemoveMember(h, p, name);
    if rc == 0 {
      ghost var t := h.St();
      h.FreeValue(v);
      FreedTracked(t, h.St(), RefsOf(v));
      FreedIs(t, h.St(), RefsOf(v));
    }
  }

  /** `di_add_member_move`: the caller's variable is emptied, and what it referred to is the
      member's, if the name is new.  A value of size zero is refused.  Where there is no
      name, nobody has the references any more, though they still count. */
  method AddMemberMove(h: Heap, p: Ref, name: Option<string>, v: Value) returns (rc: int)
    requires Idle(h) && p in h.intact && RefsOf(v).Strong() <= h.outside && RefsOf(v).weak <= h.weakOutside
    modifies h
    ensures Idle(h) && p in old(h.members)
    ensures v.Nil? || name.None? ==> rc == -EINVAL && h.St() == old(h.St())
    ensures !v.Nil? && name.Some? && IndexOf(old(h.members)[p], name.value) < |old(h.members)[p]| ==>
      rc == -EEXIST && Freed(old(h.St()), h.St(), RefsOf(v)) && (Tracked(old(h.St())) ==> Tracked(h.St()))
    ensures !v.Nil? && name.Some? && IndexOf(old(h.members)[p], name.value) == |old(h.members)[p]| ==>
      && rc == 0 && h.St() == old(h.St()).Put(p, Member(name.value, v))
      && (Tracked(old(h.St())) ==>
            (Tracked(h.St()) <==>
              ReachFrom(old(h.graph), Kept(old(h.St()), RefsOf(v)) + old(h.unreferred), p)))
    ensures rc == 0 ==>
      && name.Some? && h.members == old(h.members)[p := old(h.members)[p] + [Member(name.value, v)]]
      && h.refCount == old(h.refCount) && h.weakCount == old(h.weakCount)
      && forall x :: h.outside[x] == old(h.outside)[x] - RefsOf(v).scanned[x] - RefsOf(v).hidden[x]
    ensures rc == 0 || rc == -17 || rc == -22
  {
    hide State.Wf, Tracked, Freed, RefsOf, State.Put, ReachFrom, Kept;
    ghost var s := h.St();
    IntactCounted(s, p);
    if v.Nil? || name.None? {
      return -EINVAL;
    }
    if IndexOf(h.members[p], name.value) < |h.members[p]| {
      h.FreeValue(v);
      FreedTracked(s, h.St(), RefsOf(v));
      return -EEXIST;
    }
    h.PutMember(p, Member(name.value, v));
    if Tracked(s) {
      MoveTracked(s, p, Member(name.value, v));
    }
    return 0;
  }

  /** Objects that keep a reference from outside, or one hidden from the collector, when
      the caller's references `r` become a member's. */
  ghost function Kept(s: State, r: Refs): set<Ref> {
    set x | x in s.intact && (s.outside[x] > r.Strong()[x] || x in s.held.hidden || x in r.hidden)
  }

  /** Moving the caller's own references into a member keeps garbage tracked exactly
      if the object they move to is reached without them. */
  lemma MoveTracked(s: State, p: Ref, m: Member)
    requires s.Wf() && s.dying == {} && Tracked(s) && p in s.intact && p in s.members
    requires RefsOf(m.value).Strong() <= s.outside && RefsOf(m.value).weak <= s.weakOutside
    ensures var t := s.Put(p, m);
      t.Wf() && (Tracked(t) <==> ReachFrom(s.graph, Kept(s, RefsOf(m.value)) + s.unreferred, p))
  {
    hide State.Wf, Reach, RefsOf, Holds, Tally, ReachFrom;
    var t, r := s.Put(p, m), RefsOf(m.value);
    WfKeys(s);
    PutWf(s, p, m);
    KeptAnchors(s, t, r);
    ReachBeforeMove(s.graph, t.graph, Kept(s, r) + s.unreferred, p, r);
    if ReachFrom(t.graph, Anchors(t) + t.unreferred, p) {
      forall x | x in t.intact ensures ReachFrom(t.graph, Anchors(t) + t.unreferred, x) {
        MovedReached(s, t, p, r, x);
      }
    }
  }

  lemma KeptAnchors(s: State, t: State, r: Refs)
    requires r.Strong() <= s.outside && t.outside == s.outside - r.Strong() && t.held == r.Plus(s.held)
    requires t.intact == s.intact
    ensures Anchors(t) == Kept(s, r)
  {
    forall x ensures x in t.outside <==> s.outside[x] > r.Strong()[x] {
      assert t.outside[x] == s.outside[x] - r.Strong()[x];
    }
  }

  /** The first arrival at `p` needs nothing that `p` holds. */
  lemma ReachBeforeMove(g: Graph, h: Graph, A: set<Ref>, p: Ref, r: Refs)
    requires p in g && h == g[p := r.Plus(g[p])]
    ensures ReachFrom(g, A, p) <==> ReachFrom(h, A, p)
  {
    hide Reach;
    if a :| a in A && Reach(g, a, p) {
      ReachGrown(g, h, a, p);
    }
    if a :| a in A && Reach(h, a, p) {
      ReachIn(h, a, p);
      ReachSelf(g, a);
      var D := set z | z in g && Reach(g, a, z);
      if p !in D {
        forall z, w | z in D && w in h && Edge(h, z, w) ensures w in D {
          ReachEdge(g, z, w);
          ReachTrans(g, a, z, w);
        }
        ReachClosed(h, D, a, p);
      }
    }
  }

  lemma MovedReached(s: State, t: State, p: Ref, r: Refs, x: Ref)
    requires s.Wf() && s.dying == {} && t.Wf() && Tracked(s) && p in s.graph && x in t.intact
    requires t.graph == s.graph[p := r.Plus(s.graph[p])] && t.held == r.Plus(s.held)
    requires t.intact == s.intact && t.unreferred == s.unreferred
    requires r.Strong() <= s.outside && t.outside == s.outside - r.Strong()
    requires ReachFrom(t.graph, Anchors(t) + t.unreferred, p)
    ensures ReachFrom(t.graph, Anchors(t) + t.unreferred, x)
  {
    hide State.Wf, Reach;
    var roots := Anchors(t) + t.unreferred;
    var a :| a in Anchors(s) + s.unreferred && Reach(s.graph, a, x);
    var D := set z | z in s.graph && (z in t.intact ==> ReachFrom(t.graph, roots, z));
    ReachIn(s.graph, a, x);
    if a in t.intact {
      if a in roots {
        Rooted(t, roots, a);
      } else {
        FollowEdge(t, roots, p, a);
      }
    }
    forall z, w | z in D && w in s.graph && Edge(s.graph, z, w) ensures w in D {
      if w in t.intact {
        HolderIntact(s, z, w);
        FollowEdge(t, roots, z, w);
      }
    }
    ReachClosed(s.graph, D, a, x);
  }

  lemma FollowEdge(t: State, roots: set<Ref>, z: Ref, w: Ref)
    requires Edge(t.graph, z, w) && ReachFrom(t.graph, roots, z)
    ensures ReachFrom(t.graph, roots, w)
  {
    hide Reach;
    var n :| n in roots && Reach(t.graph, n, z);
    ReachEdge(t.graph, z, w);
    ReachTrans(t.graph, n, z, w);
  }

  /** An object that is no candidate and whose only reference is moved into itself is never
      collected, in any heap and however often the collector runs. */
  method SelfMoveLeaks(h: Heap, o: Ref, name: string, runs: nat)
    requires Idle(h) && o in h.outside && h.refCount[o] == 1 && o !in h.unreferred
    requires o in h.members && IndexOf(h.members[o], name) == |h.members[o]|
    modifies h
    ensures Idle(h) && o in h.intact && Sealed(h.graph, {o})
    ensures o !in h.outside && h.outside == old(h.outside) - multiset{o}
  {
    hide State.Wf, Reach, ReachFrom, Tracked, Idle, State.Put, Sealed, Undisturbed, Survived, Kept, StrongGraph;
    ghost var s := h.St();
    IdleWf(h);
    assert RefsOf(Object(o)).Strong() == multiset{o};
    OnlyOne(s, o);
    var rc := AddMemberMove(h, o, Some(name), Object(o));
    SelfMoveSealed(s, o, Member(name, Object(o)));
    for i := 0 to runs
      invariant Idle(h) && o in h.intact && o !in h.outside && Sealed(h.graph, {o}) && o !in h.unreferred
      invariant h.outside == s.outside - multiset{o}
    {
      ghost var t := h.St();
      IdleWf(h);
      Collect(h);
      IdleWf(h);
      SurvivedOutside(t, h.St());
      AloneSurvives(t, h.St(), o);
    }
  }

  /** The whole run, from a new thread on: a garbage object stays, and nothing leads to it. */
  method SelfMoveRun(o: Ref, runs: nat) returns (h: Heap)
    ensures Idle(h) && o in h.intact && h.outside == multiset{} && Sealed(h.graph, {o})
  {
    hide State.Wf, Idle, Tracked, Sealed;
    h := Start();
    NewObject(h, o);
    assert IndexOf([], "self") == 0;
    SelfMoveLeaks(h, o, "self", runs);
  }

  lemma IdleWf(h: Heap)
    requires Idle(h)
    ensures h.St().Wf() && h.dying == {} && h.isolated == {}
  {
  }

  lemma OnlyOne(s: State, o: Ref)
    requires s.Wf() && o in s.outside && s.refCount[o] == 1
    ensures o in s.intact && s.outside[o] == 1 && o !in s.held.Strong() && multiset{o} <= s.outside
  {
    Outside(s, o);
    RefCountIs(s, o);
  }

  lemma SelfMoveSealed(s: State, o: Ref, m: Member)
    requires s.Wf() && o in s.intact && o in s.members && s.outside[o] == 1 && o !in s.held.Strong()
    requires m.value == Object(o)
    ensures var t := s.Put(o, m);
      && o in t.intact && o !in t.outside && t.outside == s.outside - multiset{o}
      && Sealed(t.graph, {o}) && t.unreferred == s.unreferred
  {
    hide State.Wf, Tally, Holds;
    var t := s.Put(o, m);
    assert RefsOf(m.value).Strong() == multiset{o};
    WfKeys(s);
    PutWf(s, o, m);
    forall x | x in t.graph && x !in {o} ensures t.graph[x].Strong() !! multiset({o}) {
      HiddenHeld(s, x);
    }
  }

  lemma SurvivedOutside(s: State, t: State)
    requires Survived(s, t)
    ensures t.outside == s.outside
  {
  }

  lemma AloneSurvives(s: State, t: State, o: Ref)
    requires s.Wf() && t.Wf() && Undisturbed(s, t) && o in s.intact && o !in s.unreferred && Sealed(s.graph, {o})
    ensures o in t.intact && o !in t.unreferred && Sealed(t.graph, {o})
  {
    hide State.Wf, Sealed, Reach, ReachFrom, StrongGraph;
    assert {o} !! s.unreferred;
    SealedSurvives(s, t, {o}, o);
  }
}
