// What one call of a closure, one dispatch and a whole drain do, as functions of the state.

module Calling {
  import opened Base
  import opened Promises
  import opened Scheduling
  import opened Gathering
  import opened Drained

  // ---- why the drain ends ------------------------------------------------------------

  ghost function FreshOnes(b: Board): set<Id> {
    set d | d in b.stage && b.stage[d].Fresh?
  }

  ghost function FollowingOnes(b: Board): set<Id> {
    set d | d in b.stage && b.stage[d].Following?
  }

  ghost function Unsettled(net: Net, l: Ledger): set<Id> {
    net.defs.Keys - l.settled.Keys
  }

  /** The work left: what is pending, and what can still become pending. */
  ghost function Load(s: State): int {
    s.stack.count + 3 * |FreshOnes(s.board)| + |FollowingOnes(s.board)| + |Unsettled(s.net, s.ledger)|
  }

  lemma LoadSettle(s: State, p: Id, x: Settlement)
    requires p in s.net.defs && s.stack.isPending <= s.ledger.settled.Keys
    ensures Load(Settle(s, p, x)) <= Load(s) && Settle(s, p, x).stack.isPending <= Settle(s, p, x).ledger.settled.Keys
  {
    if p !in s.ledger.settled {
      assert Unsettled(s.net, Record(s.ledger, p, x)) == Unsettled(s.net, s.ledger) - {p};
    }
  }

  lemma StageSizes(b: Board, d: Id, stage: Stage)
    requires d in b.stage && !stage.Fresh?
    ensures |FreshOnes(Moved(b, d, stage))| == |FreshOnes(b)| - if b.stage[d].Fresh? then 1 else 0
    ensures |FollowingOnes(Moved(b, d, stage))|
      == |FollowingOnes(b)| - (if b.stage[d].Following? then 1 else 0) + if stage.Following? then 1 else 0
  {
    assert FreshOnes(Moved(b, d, stage)) == FreshOnes(b) - {d};
    if stage.Following? {
      assert FollowingOnes(Moved(b, d, stage)) == FollowingOnes(b) - {d} + {d};
    } else {
      assert FollowingOnes(Moved(b, d, stage)) == FollowingOnes(b) - {d};
    }
  }

  lemma LoadAdvance(s: State, d: Id, stage: Stage, called: bool)
    requires d in s.board.stage && !stage.Fresh? && !s.board.stage[d].Finished?
    requires (stage.Following? ==> s.board.stage[d].Fresh?)
    ensures Load(Advance(s, d, stage, called)) < Load(s)
  {
    hide FreshOnes, FollowingOnes, Unsettled;
    StageSizes(s.board, d, stage);
  }

  lemma LoadEnlist(s: State, p: Id, c: Closure)
    ensures Load(Enlist(s, p, c)) <= Load(s) + 1
  {
    hide Unsettled;
    assert FreshOnes(Append(s.board, p, c)) == FreshOnes(s.board);
    assert FollowingOnes(Append(s.board, p, c)) == FollowingOnes(s.board);
  }

  // ---- what a dispatch calls -------------------------------------------------------------

  /** The promises whose user handlers the closures `hs` call for `x`, in their order. */
  function Called(hs: seq<Closure>, x: Settlement): seq<Id> {
    if hs == [] then []
    else CalledBy(hs[0], x) + Called(hs[1..], x)
  }

  function CalledBy(c: Closure, x: Settlement): seq<Id> {
    if c.For(x).Some? && c.For(x).value.User? then [c.target] else []
  }

  /** One more waiting closure means one more call, after the others, and only if it has a handler of
      the program for what the promise settled to. */
  lemma {:induction false} CalledInOrder(hs: seq<Closure>, c: Closure, x: Settlement)
    ensures Called([], x) == []
    ensures Called(hs + [c], x) == Called(hs, x) +
      match x
      case Resolved(_) => if c.onResolve.Some? && c.onResolve.value.User? then [c.target] else []
      case Rejected(_) => if c.onReject.Some? && c.onReject.value.User? then [c.target] else []
  {
    if hs == [] {
      assert hs + [c] == [c] && [c][1..] == [];
    } else {
      assert (hs + [c])[1..] == hs[1..] + [c];
      CalledInOrder(hs[1..], c, x);
    }
  }

  // ---- frames --------------------------------------------------------------------------

  /** A settled any-promise has taken the same input. */
  ghost predicate RaceKept(s: State, t: State) {
    forall g :: g in s.ledger.settled && g in s.net.raced ==>
      g in t.net.raced && t.net.raced[g] == s.net.raced[g]
  }

  /** What the program asked for is the same, nothing settled has changed, and no call is forgotten. */
  ghost predicate Onward(s: State, t: State) {
    && t.net.defs == s.net.defs && t.net.code == s.net.code && t.net.forced == s.net.forced
    && Keeps(s.ledger, t.ledger) && s.storage.Keys <= t.storage.Keys && RaceKept(s, t) && s.calls <= t.calls
  }

  lemma OnwardOpened(s: State, t: State)
    requires Opened(s) && Onward(s, t)
    ensures Opened(t)
  {
    assert forall g :: t.net.Def(g) == s.net.Def(g);
  }

  lemma OnwardBoth(s: State, t: State, u: State)
    requires Onward(s, t) && Onward(t, u)
    ensures Onward(s, u)
  {
  }

  lemma HeadKinds(s: State, p: Id, c: Closure, rest: seq<Closure>)
    requires Core(s, Busy(p, [c] + rest)) && p in s.ledger.settled
    ensures c.target in s.net.defs && c.target in s.board.stage && !s.board.stage[c.target].Finished?
    ensures c.For(s.ledger.settled[p]).Some? ==> s.board.stage[c.target].Fresh?
    ensures s.stack.isPending <= s.ledger.settled.Keys
  {
    hide Justified, Stacked, Placed, Stages, Awake, CalledOnce, Answer;
    HeadIs(s, p, c, rest);
    TurnSettled(s.stack, s.ledger, Busy(p, [c] + rest));
  }

  /** A gathering handler is there for resolved values only, and its group is known. */
  lemma GatherKinds(s: State, p: Id, c: Closure, rest: seq<Closure>, f: Handler)
    requires Good(s, Busy(p, [c] + rest)) && p in s.ledger.settled
    requires c.For(s.ledger.settled[p]) == Some(f) && !f.User?
    ensures s.ledger.settled[p].Resolved? && f.group in s.net.defs && (f.Slot? ==> s.net.Def(f.group).Join?)
  {
    hide Core, JoinOk, AnyOk, GroupOk, Answer;
    HeadIs(s, p, c, rest);
    assert HandlersOk(s.net, c.target);
  }

  lemma JoinOpened(s: State, g: Id, i: nat, c: Closure, p: Id)
    requires Opened(s) && Grouped(s.net) && s.net.Def(g).Join? && SlotAt(s.net, s.board, c, p, g, i)
    ensures g in s.storage
  {
    hide Grouped;
  }

  /** What calling a closure in the dispatch of `p` leaves behind. */
  ghost predicate CallDone(s: State, t: State, p: Id, rest: seq<Closure>) {
    Good(t, Busy(p, rest)) && Opened(t) && Onward(s, t) && Load(t) <= Load(s)
  }

  lemma SettleOnward(s: State, p: Id, x: Settlement, d: Id, called: bool)
    requires Keeps(s.ledger, Settle(s, p, x).ledger)
    ensures Onward(s, Advance(Settle(s, p, x), d, Finished, called))
  {
    hide Keeps;
    SettleSame(s, p, x);
  }

  lemma SettleAdvanceLoad(s: State, p: Id, x: Settlement, called: bool)
    requires p in s.net.defs && s.stack.isPending <= s.ledger.settled.Keys && p in s.board.stage
    requires !s.board.stage[p].Finished?
    ensures Load(Advance(Settle(s, p, x), p, Finished, called)) <= Load(s)
  {
    hide Load, Advance, Settle;
    LoadSettle(s, p, x);
    SettleSame(s, p, x);
    LoadAdvance(Settle(s, p, x), p, Finished, called);
  }

  lemma CallSettles(s: State, p: Id, c: Closure, rest: seq<Closure>, z: Settlement)
    requires Good(s, Busy(p, [c] + rest)) && Opened(s) && p in s.ledger.settled && !Gathers(c.For(s.ledger.settled[p]))
    requires React(s.net.code, c.For(s.ledger.settled[p]), s.ledger.settled[p]) == Settles(z)
    ensures CallDone(s, Advance(Settle(s, c.target, z), c.target, Finished, c.For(s.ledger.settled[p]).Some?), p, rest)
  {
    hide Core, Groups, React, Gathers, Settle, Advance, Load, Opened, Onward;
    FinishGood(s, p, c, rest, z);
    FinishStep(s, p, c, rest, z, c.For(s.ledger.settled[p]).Some?);
    HeadKinds(s, p, c, rest);
    SettleOnward(s, c.target, z, c.target, c.For(s.ledger.settled[p]).Some?);
    OnwardOpened(s, Advance(Settle(s, c.target, z), c.target, Finished, c.For(s.ledger.settled[p]).Some?));
    SettleAdvanceLoad(s, c.target, z, c.For(s.ledger.settled[p]).Some?);
  }

  lemma AdvanceOnward(s: State, d: Id, stage: Stage)
    ensures Onward(s, Advance(s, d, stage, true))
  {
    KeepsItself(s.ledger);
  }

  lemma EnlistOnward(s: State, t: State, p: Id, c: Closure)
    requires Onward(s, t)
    ensures Onward(s, Enlist(t, p, c))
  {
  }

  lemma CallFails(s: State, p: Id, c: Closure, rest: seq<Closure>)
    requires Good(s, Busy(p, [c] + rest)) && Opened(s) && p in s.ledger.settled
    requires React(s.net.code, c.For(s.ledger.settled[p]), s.ledger.settled[p]).Nothing?
    ensures CallDone(s, Advance(s, c.target, Finished, true), p, rest)
  {
    hide Core, Groups, React, Advance, Load, Opened, Onward;
    FailGood(s, p, c, rest);
    HeadKinds(s, p, c, rest);
    AdvanceOnward(s, c.target, Finished);
    OnwardOpened(s, Advance(s, c.target, Finished, true));
    LoadAdvance(s, c.target, Finished, true);
  }

  lemma CallFollows(s: State, p: Id, c: Closure, rest: seq<Closure>, q: Id)
    requires Good(s, Busy(p, [c] + rest)) && Opened(s) && p in s.ledger.settled
    requires React(s.net.code, c.For(s.ledger.settled[p]), s.ledger.settled[p]) == Follows(q)
    ensures CallDone(s, Enlist(Advance(s, c.target, Following(q), true), q, Closure(c.target, None, None)), p, rest)
  {
    hide Core, Groups, React, Advance, Load, Opened, Onward, Enlist;
    var t := Advance(s, c.target, Following(q), true);
    FollowGood(s, p, c, rest, q);
    HeadKinds(s, p, c, rest);
    OnlyUserCode(s, p, c);
    AdvanceOnward(s, c.target, Following(q));
    EnlistOnward(s, t, q, Closure(c.target, None, None));
    OnwardOpened(s, Enlist(t, q, Closure(c.target, None, None)));
    LoadAdvance(s, c.target, Following(q), true);
    LoadEnlist(t, q, Closure(c.target, None, None));
  }

  /** Nothing is left only if everything is there. */
  predicate Storable(st: Storage) {
    st.left == 0 ==> Full(st)
  }

  /** The state after the closure of a slot of the join `g`. */
  function SlotCalled(s: State, c: Closure, g: Id, st: Storage): State
    requires Storable(st)
  {
    Advance(Settle(Joined(s, g, st), c.target, Resolved(Nil)), c.target, Finished,
      false).(storage := s.storage[g := st])
  }

  lemma LoadStorage(s: State, storage: map<Id, Storage>)
    ensures Load(s.(storage := storage)) == Load(s)
  {
  }

  lemma SettleStorage(s: State, storage: map<Id, Storage>, p: Id, x: Settlement)
    ensures Settle(s.(storage := storage), p, x) == Settle(s, p, x).(storage := storage)
  {
  }

  lemma JoinedLoad(s: State, g: Id, st: Storage)
    requires g in s.net.defs && s.stack.isPending <= s.ledger.settled.Keys && (st.left == 0 ==> Full(st))
    ensures var t := Joined(s, g, st);
      && Load(t) <= Load(s) && t.stack.isPending <= t.ledger.settled.Keys
      && t.net == s.net && t.board == s.board && t.storage == s.storage && t.calls == s.calls
  {
    hide Load, Settle;
    if st.left == 0 {
      LoadSettle(s, g, Resolved(List(Results(st))));
      SettleSame(s, g, Resolved(List(Results(st))));
    }
  }

  lemma CallSlot(s: State, p: Id, c: Closure, rest: seq<Closure>, g: Id, i: nat)
    requires Good(s, Busy(p, [c] + rest)) && Opened(s) && p in s.ledger.settled
    requires c.For(s.ledger.settled[p]) == Some(Slot(g, i))
    ensures s.ledger.settled[p].Resolved? && g in s.storage
    ensures var st := Stored(s.storage[g], i, s.ledger.settled[p].value);
      (st.left == 0 ==> Full(st)) && CallDone(s, SlotCalled(s, c, g, st), p, rest)
  {
    hide Core, JoinOk, AnyOk, Groups, Settle, Joined, Stored, Full, Opened, Head, Load, Onward, Advance, Keeps;
    GatherKinds(s, p, c, rest, Slot(g, i));
    HeadIs(s, p, c, rest);
    GroupsAt(s.net, s.ledger, s.board, s.storage, g);
    HeadSlot(s, p, c, g, i);
    JoinOpened(s, g, i, c, p);
    SlotGood(s, p, c, rest, g, i, s.ledger.settled[p].value);
    HeadKinds(s, p, c, rest);
    SlotDone(s, c, g, Stored(s.storage[g], i, s.ledger.settled[p].value));
    OnwardOpened(s, SlotCalled(s, c, g, Stored(s.storage[g], i, s.ledger.settled[p].value)));
  }

  lemma SlotDone(s: State, c: Closure, g: Id, st: Storage)
    requires g in s.net.defs && c.target in s.net.defs && s.stack.isPending <= s.ledger.settled.Keys
    requires c.target in s.board.stage && !s.board.stage[c.target].Finished? && (st.left == 0 ==> Full(st))
    requires Keeps(s.ledger, Settle(Joined(s, g, st), c.target, Resolved(Nil)).ledger)
    ensures Load(SlotCalled(s, c, g, st)) <= Load(s) && Onward(s, SlotCalled(s, c, g, st))
  {
    hide Load, Settle, Joined, Full, Keeps;
    var s1 := Joined(s, g, st);
    JoinedLoad(s, g, st);
    SettleSame(s1, c.target, Resolved(Nil));
    SettleAdvanceLoad(s1, c.target, Resolved(Nil), false);
    LoadStorage(Advance(Settle(s1, c.target, Resolved(Nil)), c.target, Finished, false), s.storage[g := st]);
  }

  lemma RacedLoad(s: State, g: Id, i: nat, x: Settlement)
    requires g in s.net.defs && s.stack.isPending <= s.ledger.settled.Keys
    ensures var t := Raced(s, g, i, x);
      && Load(t) <= Load(s) && t.stack.isPending <= t.ledger.settled.Keys
      && t.net.defs == s.net.defs && t.net.code == s.net.code && t.net.forced == s.net.forced
      && t.board == s.board && t.storage == s.storage && t.calls == s.calls && RaceKept(s, t)
  {
    hide Load, Settle;
    if g !in s.ledger.settled {
      var r := s.(net := s.net.(raced := s.net.raced[g := i]));
      LoadRaced(s, g, i);
      LoadSettle(r, g, x);
      SettleSame(r, g, x);
    }
  }

  lemma LoadRaced(s: State, g: Id, i: nat)
    ensures Load(s.(net := s.net.(raced := s.net.raced[g := i]))) == Load(s)
  {
  }

  lemma CallFirst(s: State, p: Id, c: Closure, rest: seq<Closure>, g: Id, i: nat)
    requires Good(s, Busy(p, [c] + rest)) && Opened(s) && p in s.ledger.settled
    requires c.For(s.ledger.settled[p]) == Some(First(g, i))
    ensures s.ledger.settled[p].Resolved?
    ensures CallDone(s, Advance(Settle(Raced(s, g, i, s.ledger.settled[p]), c.target, Resolved(Nil)), c.target,
      Finished, false), p, rest)
  {
    hide Core, Groups, Settle, Raced, Opened, Load, Onward, Keeps, Advance;
    GatherKinds(s, p, c, rest, First(g, i));
    FirstGood(s, p, c, rest, g, i);
    HeadKinds(s, p, c, rest);
    FirstDone(s, c, g, i, s.ledger.settled[p]);
    OnwardOpened(s, Advance(Settle(Raced(s, g, i, s.ledger.settled[p]), c.target, Resolved(Nil)), c.target, Finished,
      false));
  }

  lemma FirstDone(s: State, c: Closure, g: Id, i: nat, x: Settlement)
    requires g in s.net.defs && c.target in s.net.defs && s.stack.isPending <= s.ledger.settled.Keys
    requires c.target in s.board.stage && !s.board.stage[c.target].Finished?
    requires Keeps(s.ledger, Settle(Raced(s, g, i, x), c.target, Resolved(Nil)).ledger)
    ensures var t := Advance(Settle(Raced(s, g, i, x), c.target, Resolved(Nil)), c.target, Finished, false);
      Load(t) <= Load(s) && Onward(s, t)
  {
    hide Load, Settle, Raced, Keeps;
    var s1 := Raced(s, g, i, x);
    RacedLoad(s, g, i, x);
    SettleSame(s1, c.target, Resolved(Nil));
    SettleAdvanceLoad(s1, c.target, Resolved(Nil), false);
  }

  // ---- one call ------------------------------------------------------------------------

  /** The state after di_promise_handler_closure: `c` called with what its promise settled to. */
  function CallResult(s: State, c: Closure, x: Settlement): State {
    match c.For(x)
    case None => Advance(Settle(s, c.target, x), c.target, Finished, false)
    case Some(User(k)) =>
      (match s.net.code(k, x.Payload())
       case Failed => Advance(s, c.target, Finished, true)
       case Threw(e) => Advance(Settle(s, c.target, Rejected(e)), c.target, Finished, true)
       case Returned(v) => Advance(Settle(s, c.target, Resolved(v)), c.target, Finished, true)
       case Adopted(q) => Enlist(Advance(s, c.target, Following(q), true), q, Closure(c.target, None, None)))
    case Some(Slot(g, i)) =>
      if g in s.storage && Storable(Stored(s.storage[g], i, x.Payload()))
      then SlotCalled(s, c, g, Stored(s.storage[g], i, x.Payload()))
      else s
    case Some(First(g, i)) =>
      Advance(Settle(Raced(s, g, i, x), c.target, Resolved(Nil)), c.target, Finished, false)
  }

  lemma CallResultDone(s: State, p: Id, c: Closure, rest: seq<Closure>)
    requires Good(s, Busy(p, [c] + rest)) && Opened(s) && p in s.ledger.settled
    ensures CallDone(s, CallResult(s, c, s.ledger.settled[p]), p, rest)
  {
    hide Good, Opened, CallDone, Settle, Enlist, Advance, SlotCalled, Raced, Stored, Full;
    var x := s.ledger.settled[p];
    match c.For(x)
    case None => CallSettles(s, p, c, rest, x);
    case Some(User(k)) =>
      match s.net.code(k, x.Payload()) {
        case Failed => CallFails(s, p, c, rest);
        case Threw(e) => CallSettles(s, p, c, rest, Rejected(e));
        case Returned(v) => CallSettles(s, p, c, rest, Resolved(v));
        case Adopted(q) => CallFollows(s, p, c, rest, q);
      }
    case Some(Slot(g, i)) => CallSlot(s, p, c, rest, g, i);
    case Some(First(g, i)) => CallFirst(s, p, c, rest, g, i);
  }

  lemma CallResultCalls(s: State, c: Closure, x: Settlement)
    ensures CallResult(s, c, x).calls == s.calls + CalledBy(c, x)
  {
  }

  // ---- a whole dispatch ------------------------------------------------------------------

  lemma DoneStart(s: State, p: Id, hs: seq<Closure>)
    requires Good(s, Busy(p, hs)) && Opened(s)
    ensures CallDone(s, s, p, hs)
  {
    hide Good, Opened;
    KeepsItself(s.ledger);
  }

  lemma DoneBoth(s: State, t: State, u: State, p: Id, hs: seq<Closure>, rest: seq<Closure>)
    requires CallDone(s, t, p, hs) && CallDone(t, u, p, rest)
    ensures CallDone(s, u, p, rest)
  {
    hide Good, Opened, Load, Onward;
    OnwardBoth(s, t, u);
  }

  lemma DoneSettled(s: State, t: State, p: Id, rest: seq<Closure>, x: Settlement)
    requires CallDone(s, t, p, rest) && p in s.ledger.settled && s.ledger.settled[p] == x
    ensures Good(t, Busy(p, rest)) && Opened(t) && p in t.ledger.settled && t.ledger.settled[p] == x
  {
    hide Good, Opened, Load;
    KeepsSettled(s.ledger, t.ledger, p);
  }

  /** The top of the stack is taken off it; its handlers are still there. */
  function Unstacked(s: State): State {
    s.(stack := s.stack.(pending := s.stack.pending - {s.stack.count - 1}, count := s.stack.count - 1))
  }

  lemma PopGood(s: State)
    requires Good(s, Idle) && Opened(s) && s.stack.count > 0
    ensures s.stack.count - 1 in s.stack.pending && PoppedTurn(s).promise in s.ledger.settled
    ensures Good(Popped(s), PoppedTurn(s)) && Opened(Popped(s)) && Load(Popped(s)) == Load(s) - 1
    ensures Onward(s, Popped(s))
  {
    hide Core, Groups, SamePassed, Opened;
    PopCore(s);
    var b := Popped(s).board;
    KeepsItself(s.ledger);
    BoardPassed(s.net, s.ledger, s.board, b);
    GroupsStay(s.net, s.ledger, s.board, s.ledger, b, s.storage);
    assert FreshOnes(b) == FreshOnes(s.board) && FollowingOnes(b) == FollowingOnes(s.board);
    OnwardOpened(s, Popped(s));
  }

  lemma EndGood(s: State, p: Id)
    requires Good(s, Busy(p, [])) && Opened(s)
    ensures var t := s.(stack := s.stack.(isPending := s.stack.isPending - {p}));
      Good(t, Idle) && Opened(t) && Load(t) == Load(s) && Onward(s, t)
  {
    hide Core, Groups, Opened;
    EndCore(s, p);
    KeepsItself(s.ledger);
    OnwardOpened(s, s.(stack := s.stack.(isPending := s.stack.isPending - {p})));
  }

  lemma LoadNat(s: State, turn: Turn)
    requires Good(s, turn)
    ensures Load(s) >= 0 && s.stack.count >= 0
  {
    hide Justified, Placed, Stages, Awake, CalledOnce, Groups;
  }

  /** The state after the closures `hs` have been called, from the first. */
  function CallAll(s: State, hs: seq<Closure>, x: Settlement): State
    decreases |hs|
  {
    if hs == [] then s else CallAll(CallResult(s, hs[0], x), hs[1..], x)
  }

  lemma NoCalls(s: State, x: Settlement)
    ensures CallAll(s, [], x) == s
  {
  }

  lemma {:induction false} CallAllDone(s: State, p: Id, hs: seq<Closure>)
    requires Good(s, Busy(p, hs)) && Opened(s) && p in s.ledger.settled
    ensures CallDone(s, CallAll(s, hs, s.ledger.settled[p]), p, [])
    ensures CallAll(s, hs, s.ledger.settled[p]).calls == s.calls + Called(hs, s.ledger.settled[p])
    decreases |hs|
  {
    hide Good, Opened, CallDone, CallResult, CalledBy;
    DoneStart(s, p, hs);
    if hs != [] {
      var x := s.ledger.settled[p];
      var t := CallResult(s, hs[0], x);
      assert hs == [hs[0]] + hs[1..];
      CallResultDone(s, p, hs[0], hs[1..]);
      CallResultCalls(s, hs[0], x);
      DoneSettled(s, t, p, hs[1..], x);
      CallAllDone(t, p, hs[1..]);
      DoneBoth(s, t, CallAll(t, hs[1..], x), p, hs[1..], []);
    }
  }

  /** The state after di_promise_dispatch of the top of the stack. */
  function Dispatched(s: State): State
    requires s.stack.count - 1 in s.stack.pending && s.stack.pending[s.stack.count - 1] in s.ledger.settled
  {
    var p := s.stack.pending[s.stack.count - 1];
    var t := CallAll(Popped(s), s.board.Waiting(p), s.ledger.settled[p]);
    t.(stack := t.stack.(isPending := t.stack.isPending - {p}))
  }

  lemma DispatchedGood(s: State)
    requires Good(s, Idle) && Opened(s) && s.stack.count > 0
    ensures s.stack.count - 1 in s.stack.pending && s.stack.pending[s.stack.count - 1] in s.ledger.settled
    ensures Good(Dispatched(s), Idle) && Opened(Dispatched(s)) && Onward(s, Dispatched(s))
    ensures Load(Dispatched(s)) < Load(s)
    ensures var p := s.stack.pending[s.stack.count - 1];
      Dispatched(s).calls == s.calls + Called(s.board.Waiting(p), s.ledger.settled[p])
  {
    hide Good, Opened, Onward, Load, Called, CallAll;
    PopGood(s);
    var p := s.stack.pending[s.stack.count - 1];
    var t := Popped(s);
    CallAllDone(t, p, s.board.Waiting(p));
    var u := CallAll(t, s.board.Waiting(p), s.ledger.settled[p]);
    EndGood(u, p);
    OnwardBoth(s, t, u);
    OnwardBoth(s, u, Dispatched(s));
  }

  /** The state after `n` dispatches, or fewer if nothing is pending any more. */
  function Rounds(s: State, n: nat): State
    decreases n
  {
    if n > 0 && s.stack.count - 1 in s.stack.pending && s.stack.pending[s.stack.count - 1] in s.ledger.settled
    then Rounds(Dispatched(s), n - 1) else s
  }

  lemma {:induction false} RoundsGood(s: State, n: nat)
    requires Good(s, Idle) && Opened(s)
    ensures Good(Rounds(s, n), Idle) && Opened(Rounds(s, n)) && Onward(s, Rounds(s, n))
    decreases n
  {
    hide Good, Opened, Onward, Load, Dispatched;
    OnwardItself(s);
    if n > 0 && s.stack.count > 0 {
      DispatchedGood(s);
      RoundsGood(Dispatched(s), n - 1);
      OnwardBoth(s, Dispatched(s), Rounds(s, n));
    } else {
      NothingOnTop(s);
    }
  }

  lemma NothingOnTop(s: State)
    requires Good(s, Idle)
    ensures s.stack.count >= 0 && (s.stack.count == 0 ==> s.stack.count - 1 !in s.stack.pending)
  {
    hide Justified, Placed, Stages, Awake, CalledOnce, Groups;
  }

  lemma {:induction false} RoundsMore(s: State, n: nat)
    ensures Rounds(s, n + 1) == Rounds(Rounds(s, n), 1)
    decreases n
  {
    hide Dispatched;
    if n > 0 && s.stack.count - 1 in s.stack.pending && s.stack.pending[s.stack.count - 1] in s.ledger.settled {
      RoundsMore(Dispatched(s), n - 1);
    }
  }

  lemma OnwardItself(s: State)
    ensures Onward(s, s)
  {
    KeepsItself(s.ledger);
  }

  // ---- when an any-promise takes the first input to resolve --------------------------------

  lemma SourceForced(net: Net, l: Ledger, q: Id)
    requires Justified(net, l) && q in l.settled && net.Def(q).Source?
    ensures q in net.forced
  {
  }

  lemma TakesAnInput(net: Net, l: Ledger, g: Id)
    requires Justified(net, l) && g in l.settled && g !in net.forced && net.Def(g).Any?
    ensures exists q ::
      q in net.Def(g).inputs && q in l.settled && l.settled[q].Resolved? && l.settled[g] == l.settled[q]
  {
    assert Allowed(net, l, g, l.settled[g], l.rank[g]);
    assert net.Def(g).inputs[net.raced[g]] in net.Def(g).inputs;
  }

  /** A drain takes the first input to resolve if only one has: its inputs are settled by the
      program, and no second one has resolved when the drain begins. */
  lemma OnlyResolvedInputWins(s: State, t: State, g: Id, p: Id)
    requires Good(s, Idle) && AtRest(t) && Onward(s, t) && g !in s.ledger.settled && ResolvedInput(s, g, p)
    requires forall q :: q in s.net.Def(g).inputs ==> s.net.Def(q).Source?
    requires forall q :: ResolvedInput(s, g, q) ==> q == p
    ensures g in t.ledger.settled && t.ledger.settled[g] == s.ledger.settled[p]
  {
    hide Core, Groups, Opened, AtRest, Justified;
    CoreJustified(s, Idle);
    RestFacts(t);
    assert t.net.Def(g) == s.net.Def(g);
    var i :| 0 <= i < |s.net.Def(g).inputs| && s.net.Def(g).inputs[i] == p;
    KeepsSettled(s.ledger, t.ledger, p);
    AnySettles(t, g, i);
    UnsettledUnforced(s.net, s.ledger, g);
    TakesAnInput(t.net, t.ledger, g);
    var q :| q in t.net.Def(g).inputs && q in t.ledger.settled && t.ledger.settled[q].Resolved?
      && t.ledger.settled[g] == t.ledger.settled[q];
    assert t.net.Def(q) == s.net.Def(q);
    SourceForced(t.net, t.ledger, q);
    ForcedSettled(s.net, s.ledger, q);
    KeepsSettled(s.ledger, t.ledger, q);
    assert ResolvedInput(s, g, q);
  }

  // ---- the input that a drain takes ---------------------------------------------------------

  /** The any-promise `g` has taken the input `p`. */
  ghost predicate Took(s: State, g: Id, p: Id) {
    && s.net.Def(g).Any? && g in s.ledger.settled && g in s.net.raced
    && s.net.raced[g] < |s.net.Def(g).inputs| && s.net.Def(g).inputs[s.net.raced[g]] == p
  }

  lemma TookStays(s: State, t: State, g: Id, p: Id)
    requires Took(s, g, p) && Onward(s, t)
    ensures Took(t, g, p)
  {
    assert t.net.Def(g) == s.net.Def(g);
  }

  /** Only the closures of an input settle an any-promise. */
  lemma CallTakes(s: State, p: Id, c: Closure, rest: seq<Closure>, g: Id)
    requires Good(s, Busy(p, [c] + rest)) && p in s.ledger.settled && s.net.Def(g).Any? && g !in s.ledger.settled
    ensures g in CallResult(s, c, s.ledger.settled[p]).ledger.settled ==>
      ResolvedInput(s, g, p) && Took(CallResult(s, c, s.ledger.settled[p]), g, p)
  {
    hide Core, Groups, Head, Good, Stored, Full;
    var x := s.ledger.settled[p];
    TargetDerived(s, p, c, rest);
    match c.For(x)
    case Some(Slot(h, i)) => GatherKinds(s, p, c, rest, Slot(h, i));
    case Some(First(h, i)) =>
      GatherKinds(s, p, c, rest, First(h, i));
      FirstInput(s, p, c, rest, h, i);
    case _ =>
  }

  lemma TargetDerived(s: State, p: Id, c: Closure, rest: seq<Closure>)
    requires Good(s, Busy(p, [c] + rest)) && p in s.ledger.settled
    ensures s.net.Def(c.target).Derived?
  {
    hide Justified, Stacked, Placed, Stages, Awake, CalledOnce, Answer, Groups;
    HeadIs(s, p, c, rest);
  }

  lemma FirstInput(s: State, p: Id, c: Closure, rest: seq<Closure>, g: Id, i: nat)
    requires Good(s, Busy(p, [c] + rest)) && p in s.ledger.settled && s.ledger.settled[p].Resolved?
    requires c.onResolve == Some(First(g, i))
    ensures s.net.Def(g).Any? && i < |s.net.Def(g).inputs| && s.net.Def(g).inputs[i] == p
    ensures ResolvedInput(s, g, p)
  {
    hide Core, Groups, Head;
    HeadIs(s, p, c, rest);
    GroupsAt(s.net, s.ledger, s.board, s.storage, g);
    HeadFirst(s, p, c, g, i);
  }

  lemma {:induction false} CallAllTakes(s: State, p: Id, hs: seq<Closure>, g: Id)
    requires Good(s, Busy(p, hs)) && Opened(s) && p in s.ledger.settled
    requires s.net.Def(g).Any? && g !in s.ledger.settled
    ensures var t := CallAll(s, hs, s.ledger.settled[p]);
      g in t.ledger.settled ==> ResolvedInput(s, g, p) && Took(t, g, p)
    decreases |hs|
  {
    hide Good, Opened, Load, CallResult, ResolvedInput, Took, Onward;
    if hs != [] {
      var x := s.ledger.settled[p];
      var t := CallResult(s, hs[0], x);
      assert hs == [hs[0]] + hs[1..];
      CallTakes(s, p, hs[0], hs[1..], g);
      CallResultDone(s, p, hs[0], hs[1..]);
      DoneSettled(s, t, p, hs[1..], x);
      OnwardAny(s, t, g, p);
      if g in t.ledger.settled {
        CallAllDone(t, p, hs[1..]);
        TookStays(t, CallAll(t, hs[1..], x), g, p);
      } else {
        CallAllTakes(t, p, hs[1..], g);
      }
    }
  }

  lemma OnwardAny(s: State, t: State, g: Id, p: Id)
    requires Onward(s, t) && p in s.ledger.settled
    ensures t.net.Def(g) == s.net.Def(g) && (ResolvedInput(t, g, p) <==> ResolvedInput(s, g, p))
  {
    KeepsSettled(s.ledger, t.ledger, p);
  }

  /** New work goes on top of the stack. */
  ghost predicate Grows(k: Stack, k1: Stack) {
    && k.count <= k1.count
    && forall i :: i in k.pending && i < k.count ==> i in k1.pending && k1.pending[i] == k.pending[i]
  }

  lemma SettleGrows(s: State, p: Id, x: Settlement)
    ensures Grows(s.stack, Settle(s, p, x).stack)
  {
  }

  lemma GrowsBoth(k: Stack, k1: Stack, k2: Stack)
    requires Grows(k, k1) && Grows(k1, k2)
    ensures Grows(k, k2)
  {
  }

  lemma EnlistGrows(s: State, p: Id, c: Closure)
    ensures Grows(s.stack, Enlist(s, p, c).stack)
  {
  }

  lemma CallGrows(s: State, c: Closure, x: Settlement)
    ensures Grows(s.stack, CallResult(s, c, x).stack)
  {
    hide Settle, Enlist, Grows, Stored, Full, Joined, Raced;
    SettleGrows(s, c.target, x);
    assert Grows(s.stack, s.stack) by { GrowsItself(s.stack); }
    match c.For(x)
    case None =>
    case Some(User(k)) =>
      match s.net.code(k, x.Payload()) {
        case Failed =>
        case Threw(e) => SettleGrows(s, c.target, Rejected(e));
        case Returned(v) => SettleGrows(s, c.target, Resolved(v));
        case Adopted(q) =>
          EnlistGrows(Advance(s, c.target, Following(q), true), q, Closure(c.target, None, None));
      }
    case Some(Slot(g, i)) =>
      if g in s.storage && Storable(Stored(s.storage[g], i, x.Payload())) {
        var t := Joined(s, g, Stored(s.storage[g], i, x.Payload()));
        JoinedGrows(s, g, Stored(s.storage[g], i, x.Payload()));
        SettleGrows(t, c.target, Resolved(Nil));
        GrowsBoth(s.stack, t.stack, Settle(t, c.target, Resolved(Nil)).stack);
      }
    case Some(First(g, i)) =>
      var t := Raced(s, g, i, x);
      RacedGrows(s, g, i, x);
      SettleGrows(t, c.target, Resolved(Nil));
      GrowsBoth(s.stack, t.stack, Settle(t, c.target, Resolved(Nil)).stack);
  }

  lemma GrowsItself(k: Stack)
    ensures Grows(k, k)
  {
  }

  lemma JoinedGrows(s: State, g: Id, st: Storage)
    requires Storable(st)
    ensures Grows(s.stack, Joined(s, g, st).stack)
  {
    hide Settle, Full;
    if st.left == 0 {
      SettleGrows(s, g, Resolved(List(Results(st))));
    }
  }

  lemma RacedGrows(s: State, g: Id, i: nat, x: Settlement)
    ensures Grows(s.stack, Raced(s, g, i, x).stack)
  {
    hide Settle;
    SettleGrows(s.(net := s.net.(raced := s.net.raced[g := i])), g, x);
  }

  lemma {:induction false} CallAllGrows(s: State, hs: seq<Closure>, x: Settlement)
    ensures Grows(s.stack, CallAll(s, hs, x).stack)
    decreases |hs|
  {
    hide CallResult;
    if hs != [] {
      CallGrows(s, hs[0], x);
      CallAllGrows(CallResult(s, hs[0], x), hs[1..], x);
    }
  }

  /** The resolved input `p` of `g` is at `i`, and no other is higher on the stack. */
  ghost predicate Highest(s: State, g: Id, p: Id, i: int) {
    && i in s.stack.pending && s.stack.pending[i] == p && ResolvedInput(s, g, p)
    && forall q, j :: ResolvedInput(s, g, q) && j in s.stack.pending && s.stack.pending[j] == q ==> j <= i
  }

  /** Inputs that only the program settles do not resolve in a drain. */
  lemma SourcesStay(s: State, t: State, g: Id, q: Id)
    requires Good(s, Idle) && Good(t, Idle) && Onward(s, t) && s.net.Def(g).Any?
    requires forall q :: q in s.net.Def(g).inputs ==> s.net.Def(q).Source?
    ensures ResolvedInput(t, g, q) <==> ResolvedInput(s, g, q)
  {
    hide Core, Groups, Justified;
    assert t.net.Def(g) == s.net.Def(g) && t.net.Def(q) == s.net.Def(q);
    KeepsSettled(s.ledger, t.ledger, q);
    if ResolvedInput(t, g, q) {
      CoreJustified(s, Idle);
      CoreJustified(t, Idle);
      SourceForced(t.net, t.ledger, q);
      ForcedSettled(s.net, s.ledger, q);
    }
  }

  lemma StackFacts(s: State)
    requires Good(s, Idle)
    ensures forall i :: i in s.stack.pending <==> 0 <= i < s.stack.count
    ensures forall i, j :: i in s.stack.pending && j in s.stack.pending && s.stack.pending[i] == s.stack.pending[j] ==>
      i == j
    ensures forall p :: InStack(s.stack.pending, p) ==> p in s.stack.isPending
  {
    hide Justified, Placed, Stages, Awake, CalledOnce, Groups, InStack;
  }

  /** While something else is on top, the highest input stays the highest. */
  lemma HighestStays(s: State, g: Id, p: Id, i: int)
    requires Good(s, Idle) && Opened(s) && Highest(s, g, p, i) && g !in s.ledger.settled && i != s.stack.count - 1
    requires forall q :: q in s.net.Def(g).inputs ==> s.net.Def(q).Source?
    ensures s.stack.count - 1 in s.stack.pending && s.stack.pending[s.stack.count - 1] in s.ledger.settled
    ensures g !in Dispatched(s).ledger.settled && Highest(Dispatched(s), g, p, i)
  {
    hide Good, Opened, Load, CallAll, ResolvedInput, Took, Onward;
    StackFacts(s);
    DispatchedGood(s);
    var top := s.stack.count - 1;
    var r, t := s.stack.pending[top], Dispatched(s);
    InputAny(s, g, p);
    NotTaken(s, g, r);
    StackFacts(t);
    CallAllGrows(Popped(s), s.board.Waiting(r), s.ledger.settled[r]);
    assert Grows(Popped(s).stack, t.stack);
    SourcesStay(s, t, g, p);
    forall q, j | ResolvedInput(t, g, q) && j in t.stack.pending && t.stack.pending[j] == q ensures j <= i {
      SourcesStay(s, t, g, q);
      ResolvedInputWaits(s, Idle, g, q);
      var k :| k in s.stack.pending && s.stack.pending[k] == q;
      assert k <= i && k in Popped(s).stack.pending && t.stack.pending[k] == q;
    }
  }

  lemma InputAny(s: State, g: Id, p: Id)
    requires ResolvedInput(s, g, p)
    ensures s.net.Def(g).Any? && p in s.ledger.settled
  {
  }

  lemma NotTaken(s: State, g: Id, r: Id)
    requires Good(s, Idle) && Opened(s) && s.stack.count > 0 && s.net.Def(g).Any? && g !in s.ledger.settled
    requires s.stack.count - 1 in s.stack.pending && s.stack.pending[s.stack.count - 1] == r
    requires r in s.ledger.settled && !ResolvedInput(s, g, r)
    ensures g !in Dispatched(s).ledger.settled
  {
    hide Good, Opened, CallAll, Took, Onward, Load;
    PopGood(s);
    CallAllTakes(Popped(s), r, s.board.Waiting(r), g);
  }

  /** On top, it is taken. */
  lemma HighestTaken(s: State, g: Id, p: Id)
    requires Good(s, Idle) && Opened(s) && s.stack.count > 0 && g !in s.ledger.settled && ResolvedInput(s, g, p)
    requires s.stack.count - 1 in s.stack.pending && s.stack.pending[s.stack.count - 1] == p && p in s.ledger.settled
    ensures Took(Dispatched(s), g, p)
  {
    hide Good, Opened, CallAll, Took, Onward, Load, InStack;
    PopGood(s);
    InputAny(s, g, p);
    CallAllTakes(Popped(s), p, s.board.Waiting(p), g);
    DispatchedGood(s);
    var t := Dispatched(s);
    if g !in t.ledger.settled {
      OnwardAny(s, t, g, p);
      ResolvedInputWaits(t, Idle, g, p);
      StackFacts(t);
      assert false;
    }
    TookSame(CallAll(Popped(s), s.board.Waiting(p), s.ledger.settled[p]), t, g, p);
  }

  lemma TookSame(s: State, t: State, g: Id, p: Id)
    requires Took(s, g, p) && t.net == s.net && t.ledger == s.ledger
    ensures Took(t, g, p)
  {
  }

  /** A drain takes the resolved input that is highest on the stack. */
  lemma {:induction false} HighestInputWins(s: State, n: nat, g: Id, p: Id, i: int)
    requires Good(s, Idle) && Opened(s) && g !in s.ledger.settled && Highest(s, g, p, i)
    requires forall q :: q in s.net.Def(g).inputs ==> s.net.Def(q).Source?
    requires Rounds(s, n).stack.count == 0
    ensures Took(Rounds(s, n), g, p)
    decreases n
  {
    hide Good, Opened, Dispatched, Took, Onward, Load, ResolvedInput;
    StackFacts(s);
    assert n > 0;
    DispatchedGood(s);
    var t := Dispatched(s);
    if i == s.stack.count - 1 {
      HighestTaken(s, g, p);
      RoundsGood(t, n - 1);
      TookStays(t, Rounds(t, n - 1), g, p);
    } else {
      HighestStays(s, g, p, i);
      SameInputs(s, t, g);
      HighestInputWins(t, n - 1, g, p, i);
    }
  }

  lemma SameInputs(s: State, t: State, g: Id)
    requires Onward(s, t)
    ensures forall q :: t.net.Def(q) == s.net.Def(q)
  {
  }

  lemma TookValue(s: State, g: Id, p: Id)
    requires Good(s, Idle) && Took(s, g, p) && g !in s.net.forced
    ensures p in s.ledger.settled && s.ledger.settled[g] == s.ledger.settled[p]
  {
    hide Groups, Stacked, Placed, Stages, Awake, CalledOnce;
    assert Allowed(s.net, s.ledger, g, s.ledger.settled[g], s.ledger.rank[g]);
  }

  /** Of an unsettled any-promise with a resolved input, one is the highest. */
  lemma {:induction false} SomeHighest(s: State, g: Id, n: nat) returns (p: Id, i: int)
    requires Good(s, Idle) && n <= s.stack.count
    requires exists j :: 0 <= j < n && j in s.stack.pending && ResolvedInput(s, g, s.stack.pending[j])
    requires forall j :: n <= j < s.stack.count && j in s.stack.pending ==> !ResolvedInput(s, g, s.stack.pending[j])
    ensures Highest(s, g, p, i)
  {
    hide Good, ResolvedInput;
    StackFacts(s);
    i := n - 1;
    p := s.stack.pending[i];
    if !ResolvedInput(s, g, p) {
      p, i := SomeHighest(s, g, n - 1);
    }
  }

  /** So an any-promise gets the value of the first of its inputs to have resolved if and only
      if the highest of them on the stack, when the drain begins, is the first. */
  lemma FirstTakenIffHighest(s: State, n: nat, g: Id) returns (p: Id, i: int)
    requires Good(s, Idle) && Opened(s) && g !in s.ledger.settled && s.net.Def(g).Any?
    requires forall q :: q in s.net.Def(g).inputs ==> s.net.Def(q).Source?
    requires (exists q :: ResolvedInput(s, g, q)) && Rounds(s, n).stack.count == 0
    ensures Highest(s, g, p, i) && p in s.ledger.rank
    ensures var t := Rounds(s, n);
      && g in t.ledger.settled && t.ledger.settled[g] == s.ledger.settled[p]
      && g in t.net.raced && t.net.raced[g] < |s.net.Def(g).inputs|
      && s.net.Def(g).inputs[t.net.raced[g]] == p
      && p in t.ledger.rank && (Earliest(t, g, p) <==> Earliest(s, g, p))
  {
    hide Good, Opened, Dispatched, Onward, Load, ResolvedInput, Rounds, Earliest;
    var q :| ResolvedInput(s, g, q);
    ResolvedInputWaits(s, Idle, g, q);
    StackFacts(s);
    NothingOnTop(s);
    p, i := SomeHighest(s, g, s.stack.count);
    HighestInputWins(s, n, g, p, i);
    RoundsGood(s, n);
    RaceUnforced(s, Rounds(s, n), g, p);
    InputAny(s, g, p);
    SameEarliest(s, Rounds(s, n), g, p);
  }

  lemma SameEarliest(s: State, t: State, g: Id, p: Id)
    requires Good(s, Idle) && Good(t, Idle) && Onward(s, t) && s.net.Def(g).Any? && p in s.ledger.rank
    requires forall q :: q in s.net.Def(g).inputs ==> s.net.Def(q).Source?
    ensures p in t.ledger.rank && (Earliest(t, g, p) <==> Earliest(s, g, p))
  {
    hide Core, Groups, Justified, ResolvedInput;
    CoreJustified(s, Idle);
    forall q | ResolvedInput(s, g, q) || ResolvedInput(t, g, q)
      ensures ResolvedInput(t, g, q) && ResolvedInput(s, g, q) && q in s.ledger.rank
      ensures q in t.ledger.rank && t.ledger.rank[q] == s.ledger.rank[q]
    {
      SourcesStay(s, t, g, q);
      InputAny(s, g, q);
      RankedPromise(s.net, s.ledger, q);
    }
  }

  lemma RaceUnforced(s: State, t: State, g: Id, p: Id)
    requires Good(s, Idle) && Good(t, Idle) && Onward(s, t) && g !in s.ledger.settled && Took(t, g, p)
    requires ResolvedInput(s, g, p)
    ensures p in s.ledger.rank && p in s.ledger.settled && t.ledger.settled[g] == s.ledger.settled[p]
    ensures t.net.Def(g) == s.net.Def(g)
  {
    hide Core, Groups, Justified;
    CoreJustified(s, Idle);
    UnsettledUnforced(s.net, s.ledger, g);
    TookValue(t, g, p);
    KeepsSettled(s.ledger, t.ledger, p);
    RankedPromise(s.net, s.ledger, p);
  }
}
