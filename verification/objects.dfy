// Reference-counted objects: strong and weak counts, destruction, members.

module Objects {
  import opened Values
  import opened RefGraph
  import opened HeapState

  ghost function New(s: State, o: Ref): State {
    s.(members := s.members[o := []], refCount := s.refCount[o := 1], weakCount := s.weakCount[o := 1],
       mark := s.mark[o := 0], destroyed := s.destroyed - {o}, graph := s.graph[o := NoRefs()],
       intact := s.intact + {o}, outside := s.outside + multiset{o})
  }

  ghost predicate IsNew(s: State, t: State, o: Ref) {
    t == New(s, o)
  }

  lemma LostOne(s: State, t: State, o: Ref)
    requires s.refCount[o] > 0 && t == s.(refCount := s.refCount[o := s.refCount[o] - 1],
      outside := s.outside - multiset{o},
      unreferred := s.unreferred + if o !in s.unreferred && o !in s.isolated && s.mark[o] == 0 then {o} else {})
    ensures t == s.LoseOne(o)
  {
  }

  /** Copying a leaf is one step at most. */
  lemma CopyLeaf(s: State, v: Value)
    requires Valid(s, RefsOf(v))
    ensures v.Nil? || v.Plain? ==> s == s.GainAll(RefsOf(v))
    ensures v.Object? || v.EmptyObject? ==> v.obj in s.intact && s.Gain(v.obj) == s.GainAll(RefsOf(v))
    ensures v.WeakObject? ==> v.obj in s.members && s.GainWeak(v.obj) == s.GainAll(RefsOf(v))
  {
    hide State.GainAll, State.Gain, State.GainWeak;
    match v
    case Object(o) => GainOne(s, o);
    case EmptyObject(o) => GainOne(s, o);
    case WeakObject(o) => GainOne(s, o);
    case _ => GainOne(s, Ref(0));
  }

  /** So is freeing it. */
  lemma FreeLeaf(s: State, v: Value)
    requires s.Wf() && RefsOf(v).Strong() <= s.outside && RefsOf(v).weak <= s.weakOutside
    ensures v.Nil? || v.Plain? ==> Freed(s, s, RefsOf(v))
    ensures v.Object? || v.EmptyObject? ==> v.obj in s.outside && RefsOf(v).Strong() == StrongRef(v.obj).Strong()
    ensures v.WeakObject? ==> v.obj in s.weakOutside
  {
    hide State.Wf, Freed;
    FreeingNothing(s, NoRefs());
  }

  lemma PutParts(s: State, o: Ref, m: Member)
    requires o in s.members && RefsOf(m.value).Strong() <= s.outside
    ensures var r := RefsOf(m.value);
      forall x :: s.Put(o, m).outside[x] == s.outside[x] - r.scanned[x] - r.hidden[x]
  {
    hide Holds, Tally, RefsOf;
    var r := RefsOf(m.value);
    forall x ensures s.outside[x] >= r.scanned[x] + r.hidden[x] {
      assert r.Strong()[x] == r.scanned[x] + r.hidden[x];
    }
  }

  lemma TakeParts(s: State, o: Ref, i: nat)
    requires o in s.members && i < |s.members[o]|
    ensures var t := s.Take(o, i);
      && t.members == s.members[o := s.members[o][..i] + s.members[o][i + 1..]]
      && t == s.(members := t.members, graph := t.graph, held := t.held, outside := t.outside,
                 weakOutside := t.weakOutside)
      && var r := RefsOf(s.members[o][i].value);
        forall x :: t.outside[x] == s.outside[x] + r.scanned[x] + r.hidden[x]
  {
    hide Holds, Tally, RefsOf;
  }

  /** What a copy adds to each count. */
  lemma GainAllIs(s: State, r: Refs)
    ensures var t := s.GainAll(r);
      && t.members == s.members && t.destroyed == s.destroyed && t.unreferred == s.unreferred && t.intact == s.intact
      && (forall x :: t.refCount[x] == s.refCount[x] + r.scanned[x] + r.hidden[x])
      && (forall x :: t.weakCount[x] == s.weakCount[x] + r.weak[x])
      && (forall x :: t.outside[x] == s.outside[x] + r.scanned[x] + r.hidden[x])
      && forall x :: t.weakOutside[x] == s.weakOutside[x] + r.weak[x]
  {
  }

  /** What giving up the references `gone` leaves: the survivors have their members, and are candidates
      if they were or have lost a reference while no collection had marked them; the dead have none. */
  lemma FreedIs(s: State, t: State, gone: Refs)
    requires s.Wf() && Freed(s, t, gone)
    ensures forall x :: x in s.outside ==> t.outside[x] == s.outside[x] - gone.scanned[x] - gone.hidden[x]
    ensures forall x :: x in s.weakOutside ==> t.weakOutside[x] == s.weakOutside[x] - gone.weak[x]
    ensures t.mark == s.mark && t.dying == s.dying && s.destroyed <= t.destroyed && t.intact <= s.intact
    ensures forall x :: x in t.intact ==>
      && x in s.members && x in t.members && t.members[x] == s.members[x]
      && (x in t.unreferred <==>
            x in s.unreferred || (t.refCount[x] < s.refCount[x] && t.mark[x] == 0 && x !in s.isolated))
    ensures forall x :: x in s.intact && x !in t.intact ==>
      t.refCount[x] == 0 && x !in t.unreferred && (x in t.members ==> x in t.destroyed && t.members[x] == [])
  {
    hide State.Mirrors, Sealed, Spares, Exactly;
  }

  class Heap {
    var members: map<Ref, seq<Member>>
    var refCount: multiset<Ref>
    var weakCount: multiset<Ref>
    var scanCount: multiset<Ref>
    var mark: multiset<Ref>
    var destroyed: set<Ref>
    var unreferred: set<Ref>
    var isolated: set<Ref>
    ghost var graph: Graph
    ghost var held: Refs
    ghost var intact: set<Ref>
    ghost var dying: set<Ref>
    ghost var outside: multiset<Ref>
    ghost var weakOutside: multiset<Ref>

    ghost function St(): State
      reads this
    {
      State(members, refCount, weakCount, mark, destroyed, unreferred, isolated,
            graph, held, intact, dying, outside, weakOutside)
    }

    /** The heap of a new thread: no objects and no candidates. */
    constructor ()
      ensures members == map[] && graph == map[] && held == NoRefs() && intact == {} && dying == {} && destroyed == {}
      ensures refCount == weakCount == scanCount == mark == outside == weakOutside == multiset{}
      ensures unreferred == isolated == {}
    {
      members, graph, held := map[], map[], NoRefs();
      refCount, weakCount, scanCount, mark, outside, weakOutside :=
        multiset{}, multiset{}, multiset{}, multiset{}, multiset{}, multiset{};
      destroyed, unreferred, isolated, intact, dying := {}, {}, {}, {}, {};
    }

    /** The storage of a new object is zeroed. */
    method Zero(o: Ref)
      modifies this`mark, this`scanCount, this`destroyed
      ensures mark == old(mark)[o := 0] && scanCount == old(scanCount)[o := 0] && destroyed == old(destroyed) - {o}
    {
      mark, scanCount, destroyed := mark[o := 0], scanCount[o := 0], destroyed - {o};
    }

    /** `di_new_object`, at the free address `o`: one reference, the caller's, and no members. */
    method Allocate(o: Ref)
      modifies this`members, this`refCount, this`weakCount, this`mark, this`scanCount, this`destroyed,
        this`graph, this`intact, this`outside
      ensures members == old(members)[o := []] && refCount == old(refCount)[o := 1]
      ensures weakCount == old(weakCount)[o := 1]
      ensures mark == old(mark)[o := 0] && scanCount == old(scanCount)[o := 0] && destroyed == old(destroyed) - {o}
      ensures graph == old(graph)[o := NoRefs()] && intact == old(intact) + {o} && outside == old(outside) + multiset{o}
    {
      Zero(o);
      Count(o);
      members := members[o := []];
      graph, intact, outside := graph[o := NoRefs()], intact + {o}, outside + multiset{o};
    }

    method Count(o: Ref)
      modifies this`refCount, this`weakCount
      ensures refCount == old(refCount)[o := 1] && weakCount == old(weakCount)[o := 1]
    {
      refCount, weakCount := refCount[o := 1], weakCount[o := 1];
    }

    // ---- taking references --------------------------------------------------

    method RefObject(o: Ref)
      requires St().Wf() && o in intact
      modifies this`refCount, this`outside
      ensures St().Wf() && St() == old(St()).Gain(o)
      ensures refCount == old(refCount)[o := old(refCount)[o] + 1] && outside == old(outside) + multiset{o}
    {
      hide State.Wf;
      GainWf(St(), o);
      refCount := refCount[o := refCount[o] + 1];
      outside := outside + multiset{o};
    }

    method WeaklyRef(o: Ref)
      requires St().Wf() && o in members
      modifies this`weakCount, this`weakOutside
      ensures St().Wf() && St() == old(St()).GainWeak(o)
      ensures weakCount == old(weakCount)[o := old(weakCount)[o] + 1] && weakOutside == old(weakOutside) + multiset{o}
    {
      hide State.Wf;
      GainWeakWf(St(), o);
      weakCount := weakCount[o := weakCount[o] + 1];
      weakOutside := weakOutside + multiset{o};
    }

    /** `di_copy_value`: the copy is the same value, and holds references of its own. */
    method CopyValue(v: Value)
      requires St().Wf() && Valid(St(), RefsOf(v))
      modifies this`refCount, this`weakCount, this`outside, this`weakOutside
      ensures St().Wf() && St() == old(St()).GainAll(RefsOf(v))
      ensures forall x :: refCount[x] == old(refCount)[x] + RefsOf(v).scanned[x] + RefsOf(v).hidden[x]
      ensures forall x :: weakCount[x] == old(weakCount)[x] + RefsOf(v).weak[x]
      decreases v, 0
    {
      hide State.Wf, RefsOf, RefsOfAll, State.GainAll, State.Gain, State.GainWeak, Valid;
      ghost var s := St();
      GainAllIs(s, RefsOf(v));
      RefsOfIs(v);
      CopyLeaf(s, v);
      match v
      case Nil =>
      case Plain =>
      case Object(o) => RefObject(o);
      case EmptyObject(o) => RefObject(o);
      case WeakObject(o) => WeaklyRef(o);
      case Array(elems) => CopyAll(elems);
      case Tuple(elems) => CopyAll(elems);
      case Variant(inner) => CopyValue(inner);
    }

    method CopyAll(vs: seq<Value>)
      requires St().Wf() && Valid(St(), RefsOfAll(vs))
      modifies this`refCount, this`weakCount, this`outside, this`weakOutside
      ensures St().Wf() && St() == old(St()).GainAll(RefsOfAll(vs))
      decreases vs, 1
    {
      hide State.Wf, State.GainAll, RefsOf, RefsOfAll, Valid;
      ghost var s, all := St(), RefsOfAll(vs);
      ghost var got := NoRefs();
      GainOne(s, Ref(0));
      PlusLaws(all, got, got);
      RefsOfRest(vs, 0);
      for i := 0 to |vs|
        invariant got.Plus(RefsOfAll(vs[i..])) == all
        invariant St().Wf() && St() == s.GainAll(got)
      {
        ghost var r, rest := RefsOf(vs[i]), RefsOfAll(vs[i + 1..]);
        RefsOfRest(vs, i);
        ValidParts(s, got, r, rest, all);
        CopyValue(vs[i]);
        GainPlus(s, got, r);
        PlusLaws(got, r, rest);
        got := got.Plus(r);
      }
      RefsOfRest(vs, |vs|);
      PlusLaws(got, got, got);
    }

    // ---- giving up references -----------------------------------------------

    method DropWeak(o: Ref)
      requires St().Wf() && o in weakOutside
      modifies this`weakCount, this`weakOutside, this`members, this`graph
      ensures Freed(old(St()), St(), WeakRef(o))
      ensures weakCount == old(weakCount)[o := old(weakCount)[o] - 1] && old(weakCount)[o] > 0
      ensures members == if old(weakCount)[o] == 1 then old(members) - {o} else old(members)
    {
      hide State.Wf, Freed;
      DropWeakFreed(St(), o);
      WeakOutside(St(), o);
      weakOutside := weakOutside - multiset{o};
      WeakRelease(o);
    }

    /** `di_decrement_weak_ref_count`: the storage goes with the last weak count. */
    method WeakRelease(o: Ref)
      requires o in weakCount && o in members
      modifies this`weakCount, this`members, this`graph
      ensures St() == old(St()).LessWeak(o)
      ensures weakCount == old(weakCount)[o := old(weakCount)[o] - 1]
      ensures members == if old(weakCount)[o] == 1 then old(members) - {o} else old(members)
    {
      weakCount := weakCount[o := weakCount[o] - 1];
      if weakCount[o] == 0 {
        members := members - {o};
        graph := graph - {o};
      }
    }

    method Unref(o: Ref)
      requires St().Wf() && o in outside
      modifies this`members, this`refCount, this`weakCount, this`destroyed, this`unreferred, this`isolated,
        this`graph, this`held, this`intact, this`dying, this`outside, this`weakOutside
      ensures Freed(old(St()), St(), StrongRef(o)) && intact <= old(intact)
      ensures old(refCount)[o] != 1 ==>
        && refCount == old(refCount)[o := old(refCount)[o] - 1] && old(refCount)[o] > 1
        && members == old(members) && weakCount == old(weakCount) && destroyed == old(destroyed)
        && intact == old(intact)
        && unreferred == old(unreferred) + if mark[o] == 0 && o !in isolated then {o} else {}
      ensures old(refCount)[o] == 1 ==> o in destroyed && o !in intact
      decreases intact, 2
    {
      hide State.Wf, Freed, Destroyed, Emptying, Freeing;
      ghost var s := St();
      Outside(s, o);
      refCount := refCount[o := refCount[o] - 1];
      outside := outside - multiset{o};
      if refCount[o] == 0 {
        DoomWf(s, o);
        unreferred, isolated := unreferred - {o}, isolated - {o};
        intact, dying := intact - {o}, dying + {o};
        assert St() == s.Doom(o);
        Destroy(o);
        DestroyedFreed(s, St(), o);
      } else {
        LoseOneFreed(s, o);
        if o !in unreferred && o !in isolated && mark[o] == 0 {
          unreferred := unreferred + {o};
        }
        LostOne(s, St(), o);
      }
    }

    method Destroy(o: Ref)
      requires St().Wf() && o in dying && o in members
      modifies this`members, this`refCount, this`weakCount, this`destroyed, this`unreferred, this`isolated,
        this`graph, this`held, this`intact, this`dying, this`outside, this`weakOutside
      ensures Destroyed(old(St()), St(), o) && intact <= old(intact)
      ensures o in destroyed && o !in dying
      decreases intact, 6
    {
      hide State.Wf, Freed, Destroyed, Emptying, Freeing;
      ghost var s := St();
      SetDestroyedWf(s, o);
      destroyed := destroyed + {o};
      ghost var t := St();
      ghost var gone := Finalize(o);
      ghost var u := St();
      EndOfDyingDestroyed(s, u, o, gone);
      Emptied1(t, u, o, gone);
      dying := dying - {o};
      WeakRelease(o);
    }

    /** `di_finalize_object_inner`: drop all members of `o`, which is either being
        destroyed or held from outside. */
    method Finalize(o: Ref) returns (ghost gone: Refs)
      requires St().Wf() && o in members && (o in dying || o in outside)
      modifies this`members, this`refCount, this`weakCount, this`destroyed, this`unreferred, this`isolated,
        this`graph, this`held, this`intact, this`dying, this`outside, this`weakOutside
      ensures Emptying(old(St()), St(), o, gone) && o in members && |members[o]| == 0
      ensures intact <= old(intact)
      decreases intact, 5
    {
      hide State.Wf, Freed, Destroyed, Emptying, Freeing;
      ghost var s := St();
      gone := NoRefs();
      EmptyingStart(s, o);
      while |members[o]| > 0
        invariant o in members && Emptying(s, St(), o, gone)
        invariant dying == s.dying && outside == s.outside && intact <= s.intact
        decreases |members[o]|
      {
        ghost var t := St();
        EmptyingWf(s, t, o, gone);
        var v := TakeMember(o, 0);
        FreeValue(v);
        EmptyingNext(s, t, St(), o, gone);
        gone := gone.Plus(RefsOf(v));
      }
    }

    /** `di_remove_member_raw_impl`: take member `i` out of `o`; what it held is now outside. */
    method TakeMember(o: Ref, i: nat) returns (v: Value)
      requires St().Wf() && o in members && i < |members[o]|
      modifies this`members, this`graph, this`held, this`outside, this`weakOutside
      ensures St().Wf() && St() == old(St()).Take(o, i) && v == old(members)[o][i].value
      ensures RefsOf(v).Strong() <= outside && RefsOf(v).weak <= weakOutside
      ensures members == old(members)[o := old(members)[o][..i] + old(members)[o][i + 1..]]
      ensures forall x :: outside[x] == old(outside)[x] + RefsOf(v).scanned[x] + RefsOf(v).hidden[x]
    {
      hide State.Wf, RefsOf, Holds, Tally, State.Take;
      TakeWf(St(), o, i);
      TakeParts(St(), o, i);
      ghost var t := St().Take(o, i);
      v := members[o][i].value;
      members := members[o := members[o][..i] + members[o][i + 1..]];
      graph, held, outside, weakOutside := t.graph, t.held, t.outside, t.weakOutside;
    }

    /** `di_insert_member`, for a name known to be new. */
    method PutMember(o: Ref, m: Member)
      requires St().Wf() && o in intact && o in members
      requires RefsOf(m.value).Strong() <= outside && RefsOf(m.value).weak <= weakOutside
      modifies this`members, this`graph, this`held, this`outside, this`weakOutside
      ensures St().Wf() && St() == old(St()).Put(o, m)
      ensures members == old(members)[o := old(members)[o] + [Member(m.name, m.value)]]
      ensures forall x :: outside[x] == old(outside)[x] - RefsOf(m.value).scanned[x] - RefsOf(m.value).hidden[x]
    {
      hide State.Wf, RefsOf, Holds, Tally;
      WfKeys(St());
      PutWf(St(), o, m);
      PutParts(St(), o, m);
      ghost var t := St().Put(o, m);
      members := members[o := members[o] + [m]];
      graph, held, outside, weakOutside := t.graph, t.held, t.outside, t.weakOutside;
    }

    /** `di_upgrade_weak_ref`: a strong reference, unless the object is being or has been
        destroyed or the collector has condemned it. */
    method Upgrade(o: Ref) returns (ok: bool)
      requires St().Wf() && o in weakOutside && mark[o] != 1
      modifies this`refCount, this`outside
      ensures St().Wf() && (ok <==> o in intact && mark[o] != 2 && mark[o] != 3)
      ensures St() == if ok then old(St()).Gain(o) else old(St())
      ensures refCount == if ok then old(refCount)[o := old(refCount)[o] + 1] else old(refCount)
    {
      UpgradeFacts(St(), o);
      if refCount[o] > 0 && o !in destroyed && mark[o] != 2 && mark[o] != 3 {
        RefObject(o);
        return true;
      }
      return false;
    }

    method FreeValue(v: Value)
      requires St().Wf() && RefsOf(v).Strong() <= outside && RefsOf(v).weak <= weakOutside
      modifies this`members, this`refCount, this`weakCount, this`destroyed, this`unreferred, this`isolated,
        this`graph, this`held, this`intact, this`dying, this`outside, this`weakOutside
      ensures Freed(old(St()), St(), RefsOf(v)) && intact <= old(intact)
      decreases intact, 4, v, 0
    {
      hide State.Wf, Freed, Destroyed, Emptying, Freeing, RefsOf, RefsOfAll;
      ghost var s := St();
      RefsOfIs(v);
      FreeLeaf(s, v);
      match v
      case Nil =>
      case Plain =>
      case Object(o) => Unref(o);
      case EmptyObject(o) =>
        Unref(o);
        SameGone(s, St(), StrongRef(o), RefsOf(v));
      case WeakObject(o) => DropWeak(o);
      case Array(elems) => FreeAll(elems);
      case Tuple(elems) => FreeAll(elems);
      case Variant(inner) => FreeValue(inner);
    }

    method FreeAll(vs: seq<Value>)
      requires St().Wf() && RefsOfAll(vs).Strong() <= outside && RefsOfAll(vs).weak <= weakOutside
      modifies this`members, this`refCount, this`weakCount, this`destroyed, this`unreferred, this`isolated,
        this`graph, this`held, this`intact, this`dying, this`outside, this`weakOutside
      ensures Freed(old(St()), St(), RefsOfAll(vs)) && intact <= old(intact)
      decreases intact, 4, vs, 1
    {
      hide State.Wf, Freed, Freeing, RefsOf, RefsOfAll;
      ghost var s, all := St(), RefsOfAll(vs);
      ghost var gone := NoRefs();
      FreeingNothing(s, all);
      PlusLaws(all, gone, gone);
      RefsOfRest(vs, 0);
      var i := 0;
      while i < |vs|
        invariant 0 <= i <= |vs|
        invariant gone.Plus(RefsOfAll(vs[i..])) == all
        invariant Freeing(s, St(), gone, all) && intact <= s.intact
      {
        ghost var r, rest := RefsOf(vs[i]), RefsOfAll(vs[i + 1..]);
        RefsOfRest(vs, i);
        FreeingOne(s, St(), gone, r, rest, all);
        ghost var t := St();
        FreeValue(vs[i]);
        FreeingNext(s, t, St(), gone, r, rest, all);
        PlusLaws(gone, r, rest);
        gone := gone.Plus(r);
        i := i + 1;
      }
      RefsOfRest(vs, |vs|);
      FreeingAll(s, St(), gone, all);
    }
  }
}
