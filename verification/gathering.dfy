// Closures at work: passing on, running user handlers, and gathering for join and any.

module Gathering {
  import opened Base
  import opened Promises
  import opened Scheduling

  // ---- join and any ------------------------------------------------------------------

  /** The closure of `d` has been called with a resolved value. */
  ghost predicate Passed(net: Net, l: Ledger, b: Board, d: Id) {
    && d in b.stage && b.stage[d].Finished? && net.Def(d).Derived?
    && net.Def(d).parent in l.settled && l.settled[net.Def(d).parent].Resolved?
  }

  ghost predicate HandlersOk(net: Net, d: Id)
    requires net.Def(d).Derived?
  {
    && (net.Def(d).onReject == None || net.Def(d).onReject.value.User?)
    && match net.Def(d).onResolve
       case Some(Slot(g, i)) =>
         && net.Def(g).Join? && i < |net.Def(g).inputs| == |net.Def(g).slots|
         && net.Def(g).slots[i] == d && net.Def(g).inputs[i] == net.Def(d).parent
       case Some(First(g, i)) =>
         && net.Def(g).Any? && i < |net.Def(g).inputs| == |net.Def(g).slots|
         && net.Def(g).slots[i] == d && net.Def(g).inputs[i] == net.Def(d).parent
       case _ => true
  }

  /** The slots of a group, as far as they exist, call back to the group. */
  ghost predicate GroupOk(net: Net, g: Id) {
    match net.Def(g)
    case Join(inputs, slots) =>
      |slots| == |inputs| && forall i :: 0 <= i < |slots| && net.Def(slots[i]).Derived? ==>
        net.Def(slots[i]).onResolve == Some(Slot(g, i))
    case Any(inputs, slots) =>
      |slots| == |inputs| && forall i :: 0 <= i < |slots| && net.Def(slots[i]).Derived? ==>
        net.Def(slots[i]).onResolve == Some(First(g, i))
    case _ => true
  }

  ghost predicate Grouped(net: Net) {
    (forall d :: net.Def(d).Derived? ==> HandlersOk(net, d)) && forall g :: GroupOk(net, g)
  }

  /** The storage object of a join: what is in, what is left, and that nothing left means settled. */
  ghost predicate JoinOk(net: Net, l: Ledger, b: Board, g: Id, st: Storage) {
    && net.Def(g).Join? && |net.Def(g).slots| == |net.Def(g).inputs| == st.total && st.total > 0
    && (forall i: nat :: i in st.stored <==> i < st.total && Passed(net, l, b, net.Def(g).slots[i]))
    && (forall i: nat :: i in st.stored ==>
          && i < st.total && net.Def(g).inputs[i] in l.settled
          && l.settled[net.Def(g).inputs[i]] == Resolved(st.stored[i]))
    && st.left == st.total - |st.stored|
    && (st.left == 0 ==> g in l.settled)
  }

  ghost predicate AnyOk(net: Net, l: Ledger, b: Board, g: Id)
    requires net.Def(g).Any?
  {
    forall i :: 0 <= i < |net.Def(g).slots| && Passed(net, l, b, net.Def(g).slots[i]) ==> g in l.settled
  }

  ghost predicate Groups(net: Net, l: Ledger, b: Board, storage: map<Id, Storage>) {
    && Grouped(net)
    && (forall g :: g in storage ==> JoinOk(net, l, b, g, storage[g]))
    && (forall g :: net.Def(g).Any? ==> AnyOk(net, l, b, g))
  }

  ghost predicate Good(s: State, turn: Turn) {
    Core(s, turn) && Groups(s.net, s.ledger, s.board, s.storage)
  }

  ghost predicate Gathers(f: Option<Handler>) {
    f.Some? && !f.value.User?
  }

  /** The same slots have passed on a value. */
  ghost predicate SamePassed(net: Net, l: Ledger, b: Board, m: Ledger, b1: Board) {
    forall d :: net.Def(d).Derived? && Gathers(net.Def(d).onResolve) ==>
      (Passed(net, l, b, d) <==> Passed(net, m, b1, d))
  }

  lemma SlotPassed(net: Net, l: Ledger, b: Board, m: Ledger, b1: Board, g: Id, i: nat)
    requires GroupOk(net, g) && (net.Def(g).Join? || net.Def(g).Any?) && i < |net.Def(g).slots|
    requires SamePassed(net, l, b, m, b1)
    ensures Passed(net, l, b, net.Def(g).slots[i]) <==> Passed(net, m, b1, net.Def(g).slots[i])
  {
  }

  lemma JoinStays(net: Net, l: Ledger, b: Board, m: Ledger, b1: Board, g: Id, st: Storage)
    requires JoinOk(net, l, b, g, st) && GroupOk(net, g) && Keeps(l, m) && SamePassed(net, l, b, m, b1)
    ensures JoinOk(net, m, b1, g, st)
  {
    hide Passed, GroupOk, SamePassed;
    forall i: nat | i < |net.Def(g).slots|
      ensures Passed(net, l, b, net.Def(g).slots[i]) <==> Passed(net, m, b1, net.Def(g).slots[i])
    {
      SlotPassed(net, l, b, m, b1, g, i);
    }
  }

  lemma AnyStays(net: Net, l: Ledger, b: Board, m: Ledger, b1: Board, g: Id)
    requires net.Def(g).Any? && AnyOk(net, l, b, g) && GroupOk(net, g) && Keeps(l, m) && SamePassed(net, l, b, m, b1)
    ensures AnyOk(net, m, b1, g)
  {
    hide Passed, GroupOk, SamePassed;
    forall i: nat | i < |net.Def(g).slots|
      ensures Passed(net, l, b, net.Def(g).slots[i]) <==> Passed(net, m, b1, net.Def(g).slots[i])
    {
      SlotPassed(net, l, b, m, b1, g, i);
    }
  }

  lemma GroupsStay(net: Net, l: Ledger, b: Board, m: Ledger, b1: Board, storage: map<Id, Storage>)
    requires Groups(net, l, b, storage) && Keeps(l, m) && SamePassed(net, l, b, m, b1)
    ensures Groups(net, m, b1, storage)
  {
    hide Passed, GroupOk, HandlersOk, SamePassed, JoinOk, AnyOk, Keeps;
    forall g | g in storage ensures JoinOk(net, m, b1, g, storage[g]) {
      assert GroupOk(net, g);
      JoinStays(net, l, b, m, b1, g, storage[g]);
    }
    forall g | net.Def(g).Any? ensures AnyOk(net, m, b1, g) {
      assert GroupOk(net, g);
      AnyStays(net, l, b, m, b1, g);
    }
  }

  lemma KeepsPassed(net: Net, l: Ledger, b: Board, m: Ledger, b1: Board)
    requires Stages(net, l, b) && Keeps(l, m) && b1.stage == b.stage
    ensures SamePassed(net, l, b, m, b1)
  {
    forall d ensures Passed(net, l, b, d) <==> Passed(net, m, b1, d) {
      if d in b.stage {
        assert StageOk(net, l, d, b.stage[d]);
      }
    }
  }

  lemma SettleGood(s: State, turn: Turn, p: Id, x: Settlement)
    requires Good(s, turn) && (p !in s.ledger.settled ==> Allowed(s.net, s.ledger, p, x, s.ledger.clock))
    ensures Good(Settle(s, p, x), turn) && Keeps(s.ledger, Settle(s, p, x).ledger)
  {
    hide Groups, Justified, Stacked, Placed, Awake, CalledOnce, Allowed, Stages, SamePassed, Keeps;
    var t := Settle(s, p, x);
    SettleCore(s, turn, p, x);
    KeepsPassed(s.net, s.ledger, s.board, t.ledger, t.board);
    GroupsStay(s.net, s.ledger, s.board, t.ledger, t.board, s.storage);
  }

  // ---- what the closure at the head of a dispatch is -------------------------------------

  /** The closure at the head: still with its handlers, or passing on this very promise. */
  ghost predicate Head(s: State, p: Id, c: Closure) {
    && c.target in s.board.stage && s.net.Def(c.target).Derived? && s.net.Def(c.target).parent in s.ledger.settled
    && p in s.ledger.settled
    && if s.board.stage[c.target].Fresh?
       then s.net.Def(c.target) == Derived(p, c.onResolve, c.onReject)
       else c.onResolve == None && c.onReject == None && s.board.stage[c.target] == Following(p)
            && Answer(s.net, s.ledger, c.target) == Follows(p)
  }

  lemma HeadIs(s: State, p: Id, c: Closure, rest: seq<Closure>)
    requires Core(s, Busy(p, [c] + rest))
    ensures Head(s, p, c)
  {
    hide Justified, Stacked, Placed, Awake, CalledOnce;
    HeadSits(s.net, s.board, p, c, rest);
    TurnSettled(s.stack, s.ledger, Busy(p, [c] + rest));
    assert StageOk(s.net, s.ledger, c.target, s.board.stage[c.target]);
  }

  lemma HeadReacts(s: State, p: Id, c: Closure)
    requires Head(s, p, c)
    ensures s.board.stage[c.target].Fresh? ==>
      Answer(s.net, s.ledger, c.target) == React(s.net.code, c.For(s.ledger.settled[p]), s.ledger.settled[p])
    ensures c.For(s.ledger.settled[p]).Some? ==> s.board.stage[c.target].Fresh?
  {
  }

  lemma SettledBefore(net: Net, l: Ledger, q: Id)
    requires Justified(net, l) && q in l.settled
    ensures Before(l, q, l.clock)
  {
    hide Allowed;
  }

  /** Passing on the settlement of `p`, or settling as the handler's reply says, is allowed. */
  lemma HeadAllowed(s: State, p: Id, c: Closure, z: Settlement)
    requires Head(s, p, c) && Justified(s.net, s.ledger) && c.target !in s.ledger.settled
    requires React(s.net.code, c.For(s.ledger.settled[p]), s.ledger.settled[p]) == Settles(z)
    ensures Allowed(s.net, s.ledger, c.target, z, s.ledger.clock)
  {
    hide Justified, React;
    HeadReacts(s, p, c);
    SettledBefore(s.net, s.ledger, p);
    SettledBefore(s.net, s.ledger, s.net.Def(c.target).parent);
    UnsettledUnforced(s.net, s.ledger, c.target);
    PassesOn(s, p, c, z);
  }

  lemma PassesOn(s: State, p: Id, c: Closure, z: Settlement)
    requires Head(s, p, c) && React(s.net.code, c.For(s.ledger.settled[p]), s.ledger.settled[p]) == Settles(z)
    ensures !s.board.stage[c.target].Fresh? ==> z == s.ledger.settled[p]
  {
  }

  lemma UnsettledUnforced(net: Net, l: Ledger, p: Id)
    requires Justified(net, l) && p !in l.settled
    ensures p !in net.forced
  {
    hide Allowed;
  }

  lemma HeadFinished(s: State, p: Id, c: Closure, t: State)
    requires Head(s, p, c) && Keeps(s.ledger, t.ledger) && t.net.code == s.net.code
    requires t.net.Def(c.target) == s.net.Def(c.target)
    requires c.target in t.ledger.settled || React(s.net.code, c.For(s.ledger.settled[p]), s.ledger.settled[p]).Nothing?
    requires !React(s.net.code, c.For(s.ledger.settled[p]), s.ledger.settled[p]).Follows?
    ensures StageOk(t.net, t.ledger, c.target, Finished)
  {
    HeadReacts(s, p, c);
  }

  // ---- calling the closure at the head -----------------------------------------------

  lemma AdvanceGroups(net: Net, l: Ledger, b: Board, storage: map<Id, Storage>, d: Id, stage: Stage)
    requires Groups(net, l, b, storage) && d in b.stage && !b.stage[d].Finished? && net.Def(d).Derived?
    requires stage.Finished? && Gathers(net.Def(d).onResolve) ==>
      net.Def(d).parent in l.settled ==> l.settled[net.Def(d).parent].Rejected?
    ensures Groups(net, l, Moved(b, d, stage), storage)
  {
    hide Groups;
    KeepsItself(l);
    GroupsStay(net, l, b, l, Moved(b, d, stage), storage);
  }

  lemma KeepsItself(l: Ledger)
    ensures Keeps(l, l)
  {
  }

  /** The closure settles its promise to `z` and is gone. */
  lemma FinishStep(s: State, p: Id, c: Closure, rest: seq<Closure>, z: Settlement, called: bool)
    requires Core(s, Busy(p, [c] + rest)) && p in s.ledger.settled && (called ==> c.For(s.ledger.settled[p]).Some?)
    requires React(s.net.code, c.For(s.ledger.settled[p]), s.ledger.settled[p]) == Settles(z)
    ensures Core(Advance(Settle(s, c.target, z), c.target, Finished, called), Busy(p, rest))
    ensures Keeps(s.ledger, Settle(s, c.target, z).ledger)
  {
    hide Core, Head, Allowed, StageOk, React, Keeps;
    var d, t := c.target, Settle(s, c.target, z);
    HeadIs(s, p, c, rest);
    CoreJustified(s, Busy(p, [c] + rest));
    HeadReacts(s, p, c);
    if d !in s.ledger.settled {
      HeadAllowed(s, p, c, z);
    }
    SettleCore(s, Busy(p, [c] + rest), d, z);
    HeadFinished(s, p, c, t);
    HeadFacts(s, p, c, t);
    FinishCore(t, p, c, rest, called);
  }

  /** A closure without a gathering handler. */
  lemma FinishGood(s: State, p: Id, c: Closure, rest: seq<Closure>, z: Settlement)
    requires Good(s, Busy(p, [c] + rest)) && p in s.ledger.settled && !Gathers(c.For(s.ledger.settled[p]))
    requires React(s.net.code, c.For(s.ledger.settled[p]), s.ledger.settled[p]) == Settles(z)
    ensures Good(Advance(Settle(s, c.target, z), c.target, Finished, c.For(s.ledger.settled[p]).Some?), Busy(p, rest))
  {
    hide Core, Groups, Head, Allowed, StageOk, React, Keeps, Gathers, SamePassed, Stages;
    var t := Settle(s, c.target, z);
    FinishStep(s, p, c, rest, z, c.For(s.ledger.settled[p]).Some?);
    HeadIs(s, p, c, rest);
    HeadFacts(s, p, c, t);
    CoreStages(s, Busy(p, [c] + rest));
    KeepsPassed(s.net, s.ledger, s.board, t.ledger, t.board);
    GroupsStay(s.net, s.ledger, s.board, t.ledger, t.board, s.storage);
    AdvanceGroups(t.net, t.ledger, t.board, t.storage, c.target, Finished);
  }

  lemma CoreStages(s: State, turn: Turn)
    requires Core(s, turn)
    ensures Stages(s.net, s.ledger, s.board)
  {
  }

  lemma CoreJustified(s: State, turn: Turn)
    requires Core(s, turn)
    ensures Justified(s.net, s.ledger)
  {
  }

  /** Not finished yet, and no gathering slot if its handler does not gather. */
  lemma HeadFacts(s: State, p: Id, c: Closure, t: State)
    requires Head(s, p, c) && Keeps(s.ledger, t.ledger) && t.net == s.net && t.board == s.board
    ensures c.target in t.board.stage && !t.board.stage[c.target].Finished? && t.net.Def(c.target).Derived?
    ensures p in t.ledger.settled && t.ledger.settled[p] == s.ledger.settled[p]
    ensures !Gathers(c.For(s.ledger.settled[p])) && Gathers(t.net.Def(c.target).onResolve) ==>
      t.net.Def(c.target).parent in t.ledger.settled ==> t.ledger.settled[t.net.Def(c.target).parent].Rejected?
  {
  }

  /** The call of a user handler failed: its promise is left alone. */
  lemma FailGood(s: State, p: Id, c: Closure, rest: seq<Closure>)
    requires Good(s, Busy(p, [c] + rest)) && p in s.ledger.settled
    requires React(s.net.code, c.For(s.ledger.settled[p]), s.ledger.settled[p]).Nothing?
    ensures Good(Advance(s, c.target, Finished, true), Busy(p, rest))
  {
    hide Core, Groups, Head, StageOk, React, Keeps;
    HeadIs(s, p, c, rest);
    HeadReacts(s, p, c);
    KeepsItself(s.ledger);
    OnlyUserCode(s, p, c);
    HeadFinished(s, p, c, s);
    HeadFacts(s, p, c, s);
    FinishCore(s, p, c, rest, true);
    AdvanceGroups(s.net, s.ledger, s.board, s.storage, c.target, Finished);
  }

  /** Only user code fails, or returns a promise. */
  lemma OnlyUserCode(s: State, p: Id, c: Closure)
    requires p in s.ledger.settled
    ensures var r := React(s.net.code, c.For(s.ledger.settled[p]), s.ledger.settled[p]);
      r.Nothing? || r.Follows? ==> c.For(s.ledger.settled[p]).Some? && !Gathers(c.For(s.ledger.settled[p]))
  {
  }

  /** A user handler returned the promise `q`. */
  lemma FollowGood(s: State, p: Id, c: Closure, rest: seq<Closure>, q: Id)
    requires Good(s, Busy(p, [c] + rest)) && p in s.ledger.settled
    requires React(s.net.code, c.For(s.ledger.settled[p]), s.ledger.settled[p]) == Follows(q)
    ensures Good(Enlist(Advance(s, c.target, Following(q), true), q, Closure(c.target, None, None)), Busy(p, rest))
  {
    hide Core, Groups, Head, StageOk, React, Keeps, SamePassed;
    HeadIs(s, p, c, rest);
    HeadReacts(s, p, c);
    KeepsItself(s.ledger);
    OnlyUserCode(s, p, c);
    HeadFacts(s, p, c, s);
    HeadFollows(s, p, c, q);
    FollowCore(s, p, c, rest, q);
    AdvanceGroups(s.net, s.ledger, s.board, s.storage, c.target, Following(q));
    var t := Advance(s, c.target, Following(q), true);
    BoardPassed(s.net, s.ledger, t.board, Append(t.board, q, Closure(c.target, None, None)));
    GroupsStay(s.net, s.ledger, t.board, s.ledger, Append(t.board, q, Closure(c.target, None, None)), s.storage);
  }

  lemma HeadFollows(s: State, p: Id, c: Closure, q: Id)
    requires Head(s, p, c) && Answer(s.net, s.ledger, c.target) == Follows(q)
    ensures StageOk(s.net, s.ledger, c.target, Following(q))
  {
  }

  lemma BoardPassed(net: Net, l: Ledger, b: Board, b1: Board)
    requires b1.stage == b.stage
    ensures SamePassed(net, l, b, l, b1)
  {
  }

  // ---- a slot of a join ---------------------------------------------------------------

  function Stored(st: Storage, i: nat, v: Value): Storage {
    Storage(st.stored[i := v], st.left - 1, st.total)
  }

  predicate Full(st: Storage) {
    st.total >= 0 && forall i: nat :: i < st.total ==> i in st.stored
  }

  function Results(st: Storage): seq<Value>
    requires Full(st)
  {
    seq(st.total, i requires 0 <= i < st.total => st.stored[i])
  }

  /** `c` is the fresh closure of slot `i` of the join `g`, and `p` is the input. */
  ghost predicate SlotAt(net: Net, b: Board, c: Closure, p: Id, g: Id, i: nat) {
    && c.target in b.stage && b.stage[c.target].Fresh?
    && net.Def(c.target).Derived? && net.Def(c.target).parent == p && net.Def(c.target).onResolve == Some(Slot(g, i))
    && net.Def(g).Join? && i < |net.Def(g).inputs| == |net.Def(g).slots|
    && net.Def(g).slots[i] == c.target && net.Def(g).inputs[i] == p
  }

  lemma HeadSlot(s: State, p: Id, c: Closure, g: Id, i: nat)
    requires Head(s, p, c) && Grouped(s.net) && s.ledger.settled[p].Resolved? && c.onResolve == Some(Slot(g, i))
    ensures SlotAt(s.net, s.board, c, p, g, i)
  {
    assert HandlersOk(s.net, c.target);
  }

  /** When nothing is left, everything is stored, and each entry is the value of its input. */
  lemma LastStored(net: Net, l: Ledger, b: Board, c: Closure, p: Id, g: Id, i: nat, v: Value, st: Storage)
    requires JoinOk(net, l, b, g, st) && SlotAt(net, b, c, p, g, i) && p in l.settled && l.settled[p] == Resolved(v)
    ensures i !in st.stored && |net.Def(g).inputs| == st.total
    ensures (Stored(st, i, v).left == 0 ==> Full(Stored(st, i, v)))
    ensures forall k: nat :: k in Stored(st, i, v).stored ==>
      && k < st.total && net.Def(g).inputs[k] in l.settled
      && l.settled[net.Def(g).inputs[k]] == Resolved(Stored(st, i, v).stored[k])
  {
    hide Passed, Full;
    FreshNotPassed(net, l, b, c.target);
    assert !Passed(net, l, b, net.Def(g).slots[i]);
    assert forall k: nat :: k in st.stored ==> k < st.total;
    NothingLeft(st, i, v);
  }

  lemma NothingLeft(st: Storage, i: nat, v: Value)
    requires i !in st.stored && i < st.total && st.left == st.total - |st.stored|
    requires forall k: nat :: k in st.stored ==> k < st.total
    ensures Stored(st, i, v).left == 0 ==> Full(Stored(st, i, v))
  {
    var now := Stored(st, i, v);
    assert now.stored.Keys == st.stored.Keys + {i};
    if now.left == 0 {
      SubsetFull(now.stored.Keys, Upto(st.total));
      forall k: nat | k < st.total ensures k in now.stored {
        assert k in Upto(st.total);
      }
    }
  }

  lemma FreshNotPassed(net: Net, l: Ledger, b: Board, d: Id)
    requires d in b.stage && b.stage[d].Fresh?
    ensures !Passed(net, l, b, d)
  {
  }

  lemma JoinAllowed(net: Net, l: Ledger, g: Id, st: Storage)
    requires Justified(net, l) && g !in l.settled && net.Def(g).Join? && |net.Def(g).inputs| == st.total && Full(st)
    requires forall k: nat :: k in st.stored ==>
      k < st.total && net.Def(g).inputs[k] in l.settled && l.settled[net.Def(g).inputs[k]] == Resolved(st.stored[k])
    ensures Allowed(net, l, g, Resolved(List(Results(st))), l.clock)
  {
    hide Justified;
    UnsettledUnforced(net, l, g);
    var inputs := net.Def(g).inputs;
    forall k | 0 <= k < |inputs|
      ensures Before(l, inputs[k], l.clock) && l.settled[inputs[k]] == Resolved(Results(st)[k])
    {
      assert k in st.stored;
      SettledBefore(net, l, inputs[k]);
    }
  }

  function Joined(s: State, g: Id, st: Storage): State
    requires st.left == 0 ==> Full(st)
  {
    if st.left == 0 then Settle(s, g, Resolved(List(Results(st)))) else s
  }

  /** The join's own entry, once the slot is through. */
  lemma SlotStored(net: Net, l: Ledger, b: Board, m: Ledger, c: Closure, p: Id, g: Id, i: nat, v: Value, st: Storage)
    requires JoinOk(net, l, b, g, st) && SlotAt(net, b, c, p, g, i) && p in l.settled && l.settled[p] == Resolved(v)
    requires Keeps(l, m) && Stages(net, l, b) && GroupOk(net, g) && (Stored(st, i, v).left == 0 ==> g in m.settled)
    ensures JoinOk(net, m, Moved(b, c.target, Finished), g, Stored(st, i, v))
  {
    hide Passed, Stages, GroupOk;
    var b1, now, slots := Moved(b, c.target, Finished), Stored(st, i, v), net.Def(g).slots;
    LastStored(net, l, b, c, p, g, i, v, st);
    forall k: nat | k < st.total ensures Passed(net, m, b1, slots[k]) <==> k == i || Passed(net, l, b, slots[k]) {
      SlotOnce(net, b, c, p, g, i, k);
      PassedMoved(net, l, b, m, c.target, slots[k]);
    }
  }

  lemma SlotOnce(net: Net, b: Board, c: Closure, p: Id, g: Id, i: nat, k: nat)
    requires SlotAt(net, b, c, p, g, i) && GroupOk(net, g) && k < |net.Def(g).slots|
    ensures net.Def(g).slots[k] == c.target <==> k == i
  {
  }

  lemma PassedMoved(net: Net, l: Ledger, b: Board, m: Ledger, d: Id, e: Id)
    requires Stages(net, l, b) && Keeps(l, m) && d in b.stage && net.Def(d).Derived? && net.Def(d).parent in l.settled
    requires l.settled[net.Def(d).parent].Resolved?
    ensures Passed(net, m, Moved(b, d, Finished), e) <==> e == d || Passed(net, l, b, e)
  {
    if e in b.stage {
      assert StageOk(net, l, e, b.stage[e]);
    }
  }

  /** `c` is the fresh closure of `p` with the gathering handler `f`. */
  ghost predicate CallerAt(net: Net, b: Board, c: Closure, p: Id, f: Handler) {
    && c.target in b.stage && b.stage[c.target].Fresh? && !f.User?
    && net.Def(c.target).Derived? && net.Def(c.target).parent == p && net.Def(c.target).onResolve == Some(f)
  }

  lemma OthersStored(net: Net, l: Ledger, b: Board, m: Ledger, c: Closure, p: Id, f: Handler, h: Id, st: Storage)
    requires JoinOk(net, l, b, h, st) && CallerAt(net, b, c, p, f) && h != f.group && GroupOk(net, h) && p in l.settled
    requires Keeps(l, m) && Stages(net, l, b) && l.settled[p].Resolved?
    ensures JoinOk(net, m, Moved(b, c.target, Finished), h, st)
  {
    hide Passed, Stages;
    forall k: nat | k < st.total
      ensures Passed(net, m, Moved(b, c.target, Finished), net.Def(h).slots[k]) <==>
        Passed(net, l, b, net.Def(h).slots[k])
    {
      PassedMoved(net, l, b, m, c.target, net.Def(h).slots[k]);
    }
  }

  lemma AnysStored(net: Net, l: Ledger, b: Board, m: Ledger, c: Closure, p: Id, f: Handler, h: Id)
    requires net.Def(h).Any? && AnyOk(net, l, b, h) && CallerAt(net, b, c, p, f)
    requires (f.First? && f.group == h ==> h in m.settled) && GroupOk(net, h) && p in l.settled
    requires Keeps(l, m) && Stages(net, l, b) && l.settled[p].Resolved?
    ensures AnyOk(net, m, Moved(b, c.target, Finished), h)
  {
    hide Passed, Stages;
    forall k: nat | k < |net.Def(h).slots| && Passed(net, m, Moved(b, c.target, Finished), net.Def(h).slots[k])
      ensures h in m.settled
    {
      PassedMoved(net, l, b, m, c.target, net.Def(h).slots[k]);
    }
  }

  lemma SlotGroups(net: Net, l: Ledger, b: Board, m: Ledger, c: Closure, p: Id, g: Id, i: nat, v: Value,
      storage: map<Id, Storage>)
    requires Groups(net, l, b, storage) && g in storage && SlotAt(net, b, c, p, g, i)
    requires p in l.settled && l.settled[p] == Resolved(v) && Keeps(l, m) && Stages(net, l, b)
    requires Stored(storage[g], i, v).left == 0 ==> g in m.settled
    ensures Groups(net, m, Moved(b, c.target, Finished), storage[g := Stored(storage[g], i, v)])
  {
    hide JoinOk, AnyOk, Stages, GroupOk, HandlersOk, Stored;
    var after := storage[g := Stored(storage[g], i, v)];
    forall h | h in after ensures JoinOk(net, m, Moved(b, c.target, Finished), h, after[h]) {
      assert JoinOk(net, l, b, h, storage[h]) && GroupOk(net, h);
      if h == g {
        SlotStored(net, l, b, m, c, p, g, i, v, storage[g]);
      } else {
        OthersStored(net, l, b, m, c, p, Slot(g, i), h, storage[h]);
      }
    }
    forall h | net.Def(h).Any? ensures AnyOk(net, m, Moved(b, c.target, Finished), h) {
      assert GroupOk(net, h);
      AnysStored(net, l, b, m, c, p, Slot(g, i), h);
    }
  }

  /** The closure of slot `i` of the join `g`: its value is stored, the join settles when
      nothing is left, and the slot's own promise settles to nil. */
  lemma SlotGood(s: State, p: Id, c: Closure, rest: seq<Closure>, g: Id, i: nat, v: Value)
    requires Good(s, Busy(p, [c] + rest)) && p in s.ledger.settled && s.ledger.settled[p] == Resolved(v)
    requires c.onResolve == Some(Slot(g, i)) && g in s.storage
    ensures var st := Stored(s.storage[g], i, v);
      && i !in s.storage[g].stored && (st.left == 0 ==> Full(st))
      && Good(Advance(Settle(Joined(s, g, st), c.target, Resolved(Nil)), c.target, Finished,
        false).(storage := s.storage[g := st]),
              Busy(p, rest))
      && Keeps(s.ledger, Settle(Joined(s, g, st), c.target, Resolved(Nil)).ledger)
  {
    hide Core, Groups, Head, Allowed, StageOk, Keeps, Full, JoinOk, Settle, Stages, Joined, React;
    var turn, st := Busy(p, [c] + rest), Stored(s.storage[g], i, v);
    HeadIs(s, p, c, rest);
    CoreJustified(s, turn);
    GroupsAt(s.net, s.ledger, s.board, s.storage, g);
    HeadSlot(s, p, c, g, i);
    LastStored(s.net, s.ledger, s.board, c, p, g, i, v, s.storage[g]);
    var s1 := Joined(s, g, st);
    JoinedCore(s, turn, g, st);
    KeepsSettled(s.ledger, s1.ledger, p);
    SlotReacts(s1, p, c, v, g, i);
    FinishStep(s1, p, c, rest, Resolved(Nil), false);
    var s2 := Settle(s1, c.target, Resolved(Nil));
    SettleSame(s1, c.target, Resolved(Nil));
    KeepsBoth(s.ledger, s1.ledger, s2.ledger);
    KeepsSettled(s1.ledger, s2.ledger, g);
    CoreStages(s, turn);
    SlotGroups(s.net, s.ledger, s.board, s2.ledger, c, p, g, i, v, s.storage);
    StorageCore(Advance(s2, c.target, Finished, false), Busy(p, rest), s.storage[g := st]);
  }

  lemma SettleSame(s: State, p: Id, x: Settlement)
    ensures var t := Settle(s, p, x);
      t.net == s.net && t.board == s.board && t.storage == s.storage && t.calls == s.calls
  {
  }

  lemma StorageCore(s: State, turn: Turn, storage: map<Id, Storage>)
    requires Core(s, turn)
    ensures Core(s.(storage := storage), turn)
  {
    hide Justified, Stacked, Placed, Stages, Awake, CalledOnce;
  }

  lemma KeepsBoth(l: Ledger, m: Ledger, n: Ledger)
    requires Keeps(l, m) && Keeps(m, n)
    ensures Keeps(l, n)
  {
  }

  lemma KeepsSettled(l: Ledger, m: Ledger, p: Id)
    requires Keeps(l, m)
    ensures p in l.settled ==> p in m.settled && m.settled[p] == l.settled[p]
  {
  }

  lemma SlotReacts(s: State, p: Id, c: Closure, v: Value, g: Id, i: nat)
    requires p in s.ledger.settled && s.ledger.settled[p] == Resolved(v) && c.onResolve == Some(Slot(g, i))
    ensures React(s.net.code, c.For(s.ledger.settled[p]), s.ledger.settled[p]) == Settles(Resolved(Nil))
  {
  }

  lemma JoinedCore(s: State, turn: Turn, g: Id, st: Storage)
    requires Core(s, turn) && s.net.Def(g).Join? && |s.net.Def(g).inputs| == st.total
    requires st.left == 0 ==> Full(st)
    requires forall k: nat :: k in st.stored ==>
      && k < st.total && s.net.Def(g).inputs[k] in s.ledger.settled
      && s.ledger.settled[s.net.Def(g).inputs[k]] == Resolved(st.stored[k])
    ensures var t := Joined(s, g, st);
      && Core(t, turn) && Keeps(s.ledger, t.ledger) && t.net == s.net && t.board == s.board && t.storage == s.storage
      && t.calls == s.calls && (st.left == 0 ==> g in t.ledger.settled)
  {
    hide Core, Full, Allowed, Keeps, Justified;
    KeepsItself(s.ledger);
    if st.left == 0 {
      CoreJustified(s, turn);
      if g !in s.ledger.settled {
        JoinAllowed(s.net, s.ledger, g, st);
      }
      SettleCore(s, turn, g, Resolved(List(Results(st))));
    }
  }

  lemma GroupsAt(net: Net, l: Ledger, b: Board, storage: map<Id, Storage>, g: Id)
    requires Groups(net, l, b, storage)
    ensures Grouped(net) && GroupOk(net, g) && (g in storage ==> JoinOk(net, l, b, g, storage[g]))
  {
    hide JoinOk, AnyOk, GroupOk;
  }

  // ---- an input of an any-promise -------------------------------------------------------

  function Raced(s: State, g: Id, i: nat, x: Settlement): State {
    if g in s.ledger.settled then s else Settle(s.(net := s.net.(raced := s.net.raced[g := i])), g, x)
  }

  lemma HeadFirst(s: State, p: Id, c: Closure, g: Id, i: nat)
    requires Head(s, p, c) && Grouped(s.net) && s.ledger.settled[p].Resolved? && c.onResolve == Some(First(g, i))
    ensures CallerAt(s.net, s.board, c, p, First(g, i))
    ensures s.net.Def(g).Any? && i < |s.net.Def(g).inputs| && s.net.Def(g).inputs[i] == p
  {
    assert HandlersOk(s.net, c.target);
  }

  lemma RacedCore(s: State, turn: Turn, g: Id, i: nat, p: Id, x: Settlement)
    requires Core(s, turn) && s.net.Def(g).Any? && i < |s.net.Def(g).inputs| && s.net.Def(g).inputs[i] == p
    requires p in s.ledger.settled && s.ledger.settled[p] == x && x.Resolved?
    ensures var t := Raced(s, g, i, x);
      && Core(t, turn) && Keeps(s.ledger, t.ledger) && g in t.ledger.settled && t.board == s.board
      && t.storage == s.storage && t.calls == s.calls && t.net.defs == s.net.defs && t.net.code == s.net.code
  {
    hide Core, Allowed, Keeps, Justified, Alike;
    KeepsItself(s.ledger);
    if g !in s.ledger.settled {
      CoreJustified(s, turn);
      var net := s.net.(raced := s.net.raced[g := i]);
      RaceJustified(s.net, s.ledger, g, i);
      NetCore(s, net, turn);
      UnsettledUnforced(net, s.ledger, g);
      SettledBefore(net, s.ledger, p);
      RaceAllowed(net, s.ledger, g, i, p, x);
      SettleCore(s.(net := net), turn, g, x);
    }
  }

  lemma RaceJustified(net: Net, l: Ledger, g: Id, i: nat)
    requires Justified(net, l) && g !in l.settled
    ensures Justified(net.(raced := net.raced[g := i]), l)
  {
    hide Allowed;
    NetJustified(net, net.(raced := net.raced[g := i]), l);
  }

  lemma RaceAllowed(net: Net, l: Ledger, g: Id, i: nat, p: Id, x: Settlement)
    requires g !in net.forced && x.Resolved? && net.Def(g).Any? && i < |net.Def(g).inputs| && net.Def(g).inputs[i] == p
    requires g in net.raced && net.raced[g] == i && p in l.settled && l.settled[p] == x && Before(l, p, l.clock)
    ensures Allowed(net, l, g, x, l.clock)
  {
  }

  lemma FirstGroups(net: Net, net1: Net, l: Ledger, b: Board, m: Ledger, c: Closure, p: Id, g: Id, i: nat,
      storage: map<Id, Storage>)
    requires Groups(net, l, b, storage) && CallerAt(net, b, c, p, First(g, i)) && net.Def(g).Any?
    requires p in l.settled && l.settled[p].Resolved? && Keeps(l, m) && Stages(net, l, b) && g in m.settled
    requires net1.defs == net.defs
    ensures Groups(net1, m, Moved(b, c.target, Finished), storage)
  {
    hide JoinOk, AnyOk, Stages, GroupOk, HandlersOk;
    var b1 := Moved(b, c.target, Finished);
    forall h | h in storage ensures JoinOk(net, m, b1, h, storage[h]) {
      assert JoinOk(net, l, b, h, storage[h]) && GroupOk(net, h);
      JoinIs(net, l, b, h, storage[h]);
      OthersStored(net, l, b, m, c, p, First(g, i), h, storage[h]);
    }
    forall h | net.Def(h).Any? ensures AnyOk(net, m, b1, h) {
      assert GroupOk(net, h);
      AnysStored(net, l, b, m, c, p, First(g, i), h);
    }
    GroupsNet(net, net1, m, b1, storage);
  }

  lemma JoinIs(net: Net, l: Ledger, b: Board, g: Id, st: Storage)
    requires JoinOk(net, l, b, g, st)
    ensures net.Def(g).Join?
  {
  }

  lemma PassedNet(net: Net, net1: Net, l: Ledger, b: Board, d: Id)
    requires net1.defs == net.defs
    ensures Passed(net1, l, b, d) <==> Passed(net, l, b, d)
  {
  }

  lemma GroupedNet(net: Net, net1: Net)
    requires Grouped(net) && net1.defs == net.defs
    ensures Grouped(net1)
  {
    forall d | net1.Def(d).Derived? ensures HandlersOk(net1, d) {
      assert HandlersOk(net, d);
    }
    forall g ensures GroupOk(net1, g) {
      assert GroupOk(net, g);
    }
  }

  lemma GroupsNet(net: Net, net1: Net, l: Ledger, b: Board, storage: map<Id, Storage>)
    requires Groups(net, l, b, storage) && net1.defs == net.defs
    ensures Groups(net1, l, b, storage)
  {
    hide Passed, Grouped;
    GroupedNet(net, net1);
    forall d ensures Passed(net1, l, b, d) <==> Passed(net, l, b, d) {
      PassedNet(net, net1, l, b, d);
    }
    forall g | g in storage ensures JoinOk(net1, l, b, g, storage[g]) {
      assert JoinOk(net, l, b, g, storage[g]);
    }
    forall g | net1.Def(g).Any? ensures AnyOk(net1, l, b, g) {
      assert AnyOk(net, l, b, g);
    }
  }

  /** The closure of input `i` of the any-promise `g`: the first of them settles it. */
  lemma FirstGood(s: State, p: Id, c: Closure, rest: seq<Closure>, g: Id, i: nat)
    requires Good(s, Busy(p, [c] + rest)) && p in s.ledger.settled && s.ledger.settled[p].Resolved?
    requires c.onResolve == Some(First(g, i))
    ensures Good(Advance(Settle(Raced(s, g, i, s.ledger.settled[p]), c.target, Resolved(Nil)), c.target, Finished,
      false), Busy(p, rest))
    ensures Keeps(s.ledger, Settle(Raced(s, g, i, s.ledger.settled[p]), c.target, Resolved(Nil)).ledger)
  {
    hide Core, Groups, Head, Allowed, StageOk, Keeps, Settle, Stages, Raced, React, CallerAt;
    var turn := Busy(p, [c] + rest);
    HeadIs(s, p, c, rest);
    GroupsAt(s.net, s.ledger, s.board, s.storage, g);
    HeadFirst(s, p, c, g, i);
    var s1 := Raced(s, g, i, s.ledger.settled[p]);
    RacedCore(s, turn, g, i, p, s.ledger.settled[p]);
    KeepsSettled(s.ledger, s1.ledger, p);
    FirstReacts(s1, p, c, g, i);
    FinishStep(s1, p, c, rest, Resolved(Nil), false);
    var s2 := Settle(s1, c.target, Resolved(Nil));
    SettleSame(s1, c.target, Resolved(Nil));
    KeepsBoth(s.ledger, s1.ledger, s2.ledger);
    KeepsSettled(s1.ledger, s2.ledger, g);
    CoreStages(s, turn);
    FirstGroups(s.net, s2.net, s.ledger, s.board, s2.ledger, c, p, g, i, s.storage);
  }

  lemma FirstReacts(s: State, p: Id, c: Closure, g: Id, i: nat)
    requires p in s.ledger.settled && s.ledger.settled[p].Resolved? && c.onResolve == Some(First(g, i))
    ensures React(s.net.code, c.For(s.ledger.settled[p]), s.ledger.settled[p]) == Settles(Resolved(Nil))
  {
  }
}
