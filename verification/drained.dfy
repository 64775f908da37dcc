// What the promises have settled to when nothing is pending any more.

module Drained {
  import opened Base
  import opened Promises
  import opened Scheduling
  import opened Gathering

  /** Every join and any is complete: its slots exist and, for a join, its storage. */
  ghost predicate Opened(s: State) {
    && (forall g :: s.net.Def(g).Join? ==> if s.net.Def(g).inputs == [] then g in s.ledger.settled else g in s.storage)
    && (forall g, i :: (s.net.Def(g).Join? || s.net.Def(g).Any?) && 0 <= i < |s.net.Def(g).slots| ==>
          s.net.Def(s.net.Def(g).slots[i]).Derived?)
  }

  /** A handler of `d` has returned the very promise that it handled, and `d` is not settled
      otherwise. */
  ghost predicate SelfReturned(s: State, d: Id) {
    && s.net.Def(d).Derived? && s.net.Def(d).parent in s.ledger.settled
    && Answer(s.net, s.ledger, d) == Follows(s.net.Def(d).parent) && d !in s.ledger.settled
  }

  ghost predicate AtRest(s: State) {
    Good(s, Idle) && Opened(s) && s.stack.count == 0
  }

  /** What still waits for a settled promise, waits for the promise its handler was called with. */
  lemma RestWaits(s: State, d: Id)
    requires AtRest(s) && Unfinished(s.net, s.board, d) && Home(s.net, s.board, d) in s.ledger.settled
    ensures s.board.stage[d] == Following(s.net.Def(d).parent) && s.net.Def(d).parent in s.ledger.settled
    ensures Answer(s.net, s.ledger, d) == Follows(s.net.Def(d).parent)
  {
    hide Justified, CalledOnce, Groups;
    var p := Home(s.net, s.board, d);
    RestDeaf(s.stack, s.ledger, p);
    var k :| 0 <= k < |s.board.Waiting(p)| && s.board.Waiting(p)[k].target == d by {
      assert Listed(Line(s.board, Idle, p), d);
    }
    assert SelfFollower(s.net, s.board, s.board.Waiting(p)[k], p);
    assert StageOk(s.net, s.ledger, d, s.board.stage[d]);
  }

  lemma RestDeaf(k: Stack, l: Ledger, p: Id)
    requires Stacked(k, l, Idle) && k.count == 0 && p in l.settled
    ensures Deaf(l, k, Idle, p)
  {
  }

  lemma RestFacts(s: State)
    requires AtRest(s)
    ensures Justified(s.net, s.ledger) && Stages(s.net, s.ledger, s.board) && Grouped(s.net)
    ensures forall g :: g in s.storage ==> JoinOk(s.net, s.ledger, s.board, g, s.storage[g])
    ensures forall g :: s.net.Def(g).Any? ==> AnyOk(s.net, s.ledger, s.board, g)
  {
    hide Justified, Stages, Grouped, JoinOk, AnyOk, Stacked, Placed, Awake, CalledOnce, Opened;
  }

  /** Its parent is settled and so is whom it follows: then so is `d`. */
  lemma DerivedSettles(s: State, d: Id)
    requires AtRest(s) && s.net.Def(d).Derived? && s.net.Def(d).parent in s.ledger.settled && !SelfReturned(s, d)
    requires !Answer(s.net, s.ledger, d).Nothing?
    requires Answer(s.net, s.ledger, d).Follows? ==> Answer(s.net, s.ledger, d).promise in s.ledger.settled
    ensures d in s.ledger.settled
  {
    hide AtRest, Justified, JoinOk, AnyOk, Grouped, Answer;
    RestFacts(s);
    assert StageOk(s.net, s.ledger, d, s.board.stage[d]);
    if !s.board.stage[d].Finished? && d !in s.ledger.settled {
      RestWaits(s, d);
    }
  }

  /** The slots of a group have passed on what resolved. */
  lemma SlotRests(s: State, g: Id, i: nat)
    requires AtRest(s) && (s.net.Def(g).Join? || s.net.Def(g).Any?) && i < |s.net.Def(g).slots|
    ensures |s.net.Def(g).inputs| == |s.net.Def(g).slots|
    ensures s.net.Def(g).inputs[i] in s.ledger.settled && s.ledger.settled[s.net.Def(g).inputs[i]].Resolved? ==>
      Passed(s.net, s.ledger, s.board, s.net.Def(g).slots[i])
  {
    hide AtRest, Justified, JoinOk, AnyOk;
    RestFacts(s);
    RestOpened(s);
    assert GroupOk(s.net, g);
    var d := s.net.Def(g).slots[i];
    assert s.net.Def(d).Derived?;
    assert HandlersOk(s.net, d) && StageOk(s.net, s.ledger, d, s.board.stage[d]);
    if s.net.Def(d).parent in s.ledger.settled && s.ledger.settled[s.net.Def(d).parent].Resolved? {
      assert Answer(s.net, s.ledger, d) == Settles(Resolved(Nil));
      if !s.board.stage[d].Finished? {
        assert s.board.stage[d].Fresh?;
        RestWaits(s, d);
      }
    }
  }

  lemma RestOpened(s: State)
    requires AtRest(s)
    ensures Opened(s)
  {
  }

  /** An any-promise is settled if an input has resolved. */
  lemma AnySettles(s: State, g: Id, i: nat)
    requires AtRest(s) && s.net.Def(g).Any? && i < |s.net.Def(g).inputs|
    requires s.net.Def(g).inputs[i] in s.ledger.settled && s.ledger.settled[s.net.Def(g).inputs[i]].Resolved?
    ensures g in s.ledger.settled
  {
    hide AtRest, Justified, JoinOk, Passed, Stages;
    RestFacts(s);
    assert GroupOk(s.net, g) && AnyOk(s.net, s.ledger, s.board, g);
    SlotRests(s, g, i);
  }

  // ---- which input an any-promise takes -----------------------------------------------------

  /** `q` is an input of `g` that has resolved. */
  ghost predicate ResolvedInput(s: State, g: Id, q: Id) {
    s.net.Def(g).Any? && q in s.net.Def(g).inputs && q in s.ledger.settled && s.ledger.settled[q].Resolved?
  }

  /** As long as an any-promise is not settled, its resolved inputs are still to be dispatched. */
  lemma ResolvedInputWaits(s: State, turn: Turn, g: Id, q: Id)
    requires Good(s, turn) && Opened(s) && ResolvedInput(s, g, q) && g !in s.ledger.settled
    ensures InStack(s.stack.pending, q) || turn.At(q)
  {
    hide Justified, CalledOnce, JoinOk, Sits, Distinct, InStack, Passed;
    var i :| 0 <= i < |s.net.Def(g).inputs| && s.net.Def(g).inputs[i] == q;
    assert GroupOk(s.net, g) && AnyOk(s.net, s.ledger, s.board, g);
    var d := s.net.Def(g).slots[i];
    assert s.net.Def(d).Derived? && HandlersOk(s.net, d);
    SlotFresh(s.net, s.ledger, s.board, d, g, i);
    var k :| 0 <= k < |Line(s.board, turn, q)| && Line(s.board, turn, q)[k].target == d by {
      assert Unfinished(s.net, s.board, d) && Home(s.net, s.board, d) == q;
      assert Listed(Line(s.board, turn, q), d);
    }
    assert !turn.At(q) ==> !SelfFollower(s.net, s.board, s.board.Waiting(q)[k], q);
    assert !turn.At(q) ==> !Deaf(s.ledger, s.stack, turn, q);
  }

  lemma SlotFresh(net: Net, l: Ledger, b: Board, d: Id, g: Id, i: nat)
    requires Stages(net, l, b) && net.Def(d).Derived? && !Passed(net, l, b, d)
    requires net.Def(d).onResolve == Some(First(g, i))
    requires net.Def(d).parent in l.settled && l.settled[net.Def(d).parent].Resolved?
    ensures d in b.stage && b.stage[d].Fresh?
  {
    assert StageOk(net, l, d, b.stage[d]);
    assert Answer(net, l, d) == Settles(Resolved(Nil));
  }

  ghost predicate Earliest(s: State, g: Id, p: Id)
    requires p in s.ledger.rank
  {
    forall q :: ResolvedInput(s, g, q) && q in s.ledger.rank ==> s.ledger.rank[p] <= s.ledger.rank[q]
  }

  /** The input that an any-promise takes is the first of its inputs to have resolved if and
      only if no input that resolved before it is still pending. */
  lemma EarliestIffOthersLater(s: State, p: Id, c: Closure, rest: seq<Closure>, g: Id, i: nat)
    requires Good(s, Busy(p, [c] + rest)) && Opened(s) && p in s.ledger.settled && s.ledger.settled[p].Resolved?
    requires c.onResolve == Some(First(g, i)) && g !in s.ledger.settled
    ensures ResolvedInput(s, g, p) && p in s.ledger.rank
    ensures Raced(s, g, i, s.ledger.settled[p]).ledger.settled[g] == s.ledger.settled[p]
    ensures Earliest(s, g, p) <==>
      forall q :: ResolvedInput(s, g, q) && InStack(s.stack.pending, q) && q in s.ledger.rank ==>
        s.ledger.rank[p] <= s.ledger.rank[q]
  {
    hide Core, Groups, Opened, Head, InStack, ResolvedInput, Good;
    FirstIsInput(s, p, c, rest, g, i);
    forall q | ResolvedInput(s, g, q) ensures InStack(s.stack.pending, q) || q == p {
      ResolvedInputWaits(s, Busy(p, [c] + rest), g, q);
    }
  }

  lemma FirstIsInput(s: State, p: Id, c: Closure, rest: seq<Closure>, g: Id, i: nat)
    requires Good(s, Busy(p, [c] + rest)) && p in s.ledger.settled && s.ledger.settled[p].Resolved?
    requires c.onResolve == Some(First(g, i))
    ensures ResolvedInput(s, g, p) && p in s.ledger.rank
  {
    hide Core, Groups, Head;
    HeadIs(s, p, c, rest);
    GroupsAt(s.net, s.ledger, s.board, s.storage, g);
    HeadFirst(s, p, c, g, i);
    CoreJustified(s, Busy(p, [c] + rest));
    RankedPromise(s.net, s.ledger, p);
  }

  /** A join is settled if every input has resolved. */
  lemma JoinSettles(s: State, g: Id)
    requires AtRest(s) && s.net.Def(g).Join?
    requires forall i :: 0 <= i < |s.net.Def(g).inputs| ==>
      s.net.Def(g).inputs[i] in s.ledger.settled && s.ledger.settled[s.net.Def(g).inputs[i]].Resolved?
    ensures g in s.ledger.settled
  {
    hide AtRest, Justified, Passed, Stages, AnyOk;
    RestFacts(s);
    RestOpened(s);
    assert GroupOk(s.net, g);
    if s.net.Def(g).inputs != [] {
      var st := s.storage[g];
      assert JoinOk(s.net, s.ledger, s.board, g, st);
      forall i: nat | i < st.total ensures i in st.stored {
        SlotRests(s, g, i);
      }
      AllStored(st);
    }
  }

  lemma AllStored(st: Storage)
    requires st.total >= 0 && forall i: nat :: i in st.stored <==> i < st.total
    ensures |st.stored| == st.total
  {
    assert st.stored.Keys == Upto(st.total);
  }

  /** Whatever has a meaning is settled, unless a handler returned its own promise. */
  lemma {:induction false} MeaningSettles(s: State, p: Id, n: nat)
    requires AtRest(s) && Meaning(s.net, p, n).Some? && forall d :: !SelfReturned(s, d)
    ensures p in s.ledger.settled && s.ledger.settled[p] == Meaning(s.net, p, n).value
    decreases n, 1
  {
    hide AtRest, Justified, JoinOk, AnyOk, Grouped, Stages, SelfReturned;
    RestFacts(s);
    if p in s.net.forced {
      ForcedSettled(s.net, s.ledger, p);
    } else {
      match s.net.Def(p)
      case Source =>
      case Derived(q, _, _) =>
        MeaningSettlesDerived(s, p, n);
      case Join(inputs, _) =>
        forall i | 0 <= i < |inputs| ensures inputs[i] in s.ledger.settled && s.ledger.settled[inputs[i]].Resolved? {
          assert IsResolved(Meaning(s.net, inputs[i], n - 1));
          MeaningSettles(s, inputs[i], n - 1);
        }
        JoinSettles(s, p);
      case Any(inputs, _) =>
        MeaningSettles(s, inputs[s.net.raced[p]], n - 1);
        AnySettles(s, p, s.net.raced[p]);
    }
    SettledToMeaning(s.net, s.ledger, p, n);
  }

  lemma {:induction false} MeaningSettlesDerived(s: State, p: Id, n: nat)
    requires AtRest(s) && 0 < n && Meaning(s.net, p, n).Some? && forall d :: !SelfReturned(s, d)
    requires p !in s.net.forced && s.net.Def(p).Derived?
    ensures p in s.ledger.settled
    decreases n, 0
  {
    hide AtRest, SelfReturned, React, Chosen;
    var q := s.net.Def(p).parent;
    MeaningSettles(s, q, n - 1);
    var r := Answer(s.net, s.ledger, p);
    if r.Follows? {
      MeaningSettles(s, r.promise, n - 1);
    }
    DerivedSettles(s, p);
  }

  lemma ForcedSettled(net: Net, l: Ledger, p: Id)
    requires Justified(net, l) && p in net.forced
    ensures p in l.settled
  {
    hide Allowed;
  }

  lemma SettledToMeaning(net: Net, l: Ledger, p: Id, n: nat)
    requires Justified(net, l) && p in l.settled && Meaning(net, p, n).Some?
    ensures Meaning(net, p, n).value == l.settled[p]
  {
    hide Justified, Meaning;
    RankedPromise(net, l, p);
    SettledMeans(net, l, p);
    var m := l.rank[p] + 1;
    if n <= m {
      MeaningGrows(net, p, n, m);
    } else {
      MeaningGrows(net, p, m, n);
    }
  }

  lemma RankedPromise(net: Net, l: Ledger, p: Id)
    requires Justified(net, l) && p in l.settled
    ensures p in l.rank
  {
    hide Allowed;
  }

  // ---- main results ----------------------------------------------------------------------

  /** At any time, whatever is settled is settled to its meaning. */
  lemma Sound(s: State, turn: Turn, p: Id)
    requires Core(s, turn) && p in s.ledger.settled
    ensures exists n :: Meaning(s.net, p, n) == Some(s.ledger.settled[p])
  {
    hide Justified, Meaning;
    CoreJustified(s, turn);
    RankedPromise(s.net, s.ledger, p);
    SettledMeans(s.net, s.ledger, p);
  }

  ghost predicate Complete(s: State) {
    forall p, n :: Meaning(s.net, p, n).Some? ==> p in s.ledger.settled
  }

  /** With nothing pending, every promise with a meaning is settled if and only if no
      handler has returned the promise it was called for. */
  lemma CompleteIffNoSelfReturn(s: State)
    requires AtRest(s)
    ensures Complete(s) <==> forall d :: !SelfReturned(s, d)
  {
    hide AtRest, Meaning, SelfReturned;
    if forall d :: !SelfReturned(s, d) {
      forall p, n | Meaning(s.net, p, n).Some? ensures p in s.ledger.settled {
        MeaningSettles(s, p, n);
      }
    }
    forall d | SelfReturned(s, d) ensures !Complete(s) {
      SelfReturnMeans(s, d);
    }
  }

  lemma SelfReturnMeans(s: State, d: Id)
    requires AtRest(s) && SelfReturned(s, d)
    ensures exists n :: Meaning(s.net, d, n).Some? && d !in s.ledger.settled
  {
    hide AtRest, Justified, Stages, Grouped, JoinOk, AnyOk;
    RestFacts(s);
    var q := s.net.Def(d).parent;
    RankedPromise(s.net, s.ledger, q);
    var n := s.ledger.rank[q] + 1;
    SettledMeans(s.net, s.ledger, q);
    UnsettledUnforced(s.net, s.ledger, d);
    assert Meaning(s.net, d, n + 1) == Some(s.ledger.settled[q]);
  }

  /** Two runs that ask for the same settle the same, in whatever order they did it. */
  lemma OrderIndependent(s: State, t: State)
    requires AtRest(s) && AtRest(t) && s.net == t.net
    requires (forall d :: !SelfReturned(s, d)) && forall d :: !SelfReturned(t, d)
    ensures s.ledger.settled == t.ledger.settled
  {
    hide AtRest, SelfReturned, Meaning, Core;
    forall p ensures p in s.ledger.settled ==> p in t.ledger.settled && t.ledger.settled[p] == s.ledger.settled[p] {
      SettledAlike(s, t, p);
    }
    forall p ensures p in t.ledger.settled ==> p in s.ledger.settled {
      SettledAlike(t, s, p);
    }
  }

  lemma SettledAlike(s: State, t: State, p: Id)
    requires AtRest(s) && AtRest(t) && s.net == t.net && forall d :: !SelfReturned(t, d)
    ensures p in s.ledger.settled ==> p in t.ledger.settled && t.ledger.settled[p] == s.ledger.settled[p]
  {
    hide SelfReturned, Meaning, Core, Groups, Opened;
    if p in s.ledger.settled {
      Sound(s, Idle, p);
      var n :| Meaning(s.net, p, n) == Some(s.ledger.settled[p]);
      MeaningSettles(t, p, n);
    }
  }

  /** Where the branch is: of the promises a handler can return, those settled already are
      scheduled for it, but for the one that is being dispatched. */
  lemma FollowedScheduled(s: State, p: Id, c: Closure, rest: seq<Closure>, q: Id)
    requires Core(s, Busy(p, [c] + rest)) && q in s.ledger.settled
    ensures var t := Enlist(Advance(s, c.target, Following(q), true), q, Closure(c.target, None, None));
      InStack(t.stack.pending, q) <==> q != p
  {
    hide Justified, Placed, Stages, Awake, CalledOnce, InStack;
    ScheduleStacked(s.stack, s.ledger, Busy(p, [c] + rest), q);
    ScheduledIn(s.stack, s.ledger, Busy(p, [c] + rest), q);
  }

  lemma ScheduledIn(k: Stack, l: Ledger, turn: Turn, q: Id)
    requires Stacked(Schedule(k, q), l, turn)
    ensures InStack(Schedule(k, q).pending, q) <==> !turn.At(q)
  {
    hide InStack;
  }
}
