// The event module and its promises, as the program and the main loop drive them.

module EventLoop {
  import opened Base
  import opened Promises
  import opened Scheduling
  import opened Gathering
  import opened Building
  import opened Drained
  import opened Calling
  import opened Outcomes

  // ---- what the program asks for -----------------------------------------------------------

  lemma ChainedOpened(s: State, p: Id, f: Option<Handler>, r: Option<Handler>, d: Id)
    requires Opened(s) && s.net.Def(d).Source?
    ensures Opened(Chained(s, p, f, r, d))
  {
    var t := Chained(s, p, f, r, d);
    assert forall e :: e != d ==> t.net.Def(e) == s.net.Def(e);
  }

  lemma ForcedOpened(s: State, p: Id, x: Settlement)
    requires Opened(s) && Keeps(s.ledger, Forced(s, p, x).ledger)
    ensures Opened(Forced(s, p, x))
  {
    hide Keeps;
    ForcedFrame(s, p, x);
    assert forall g :: Forced(s, p, x).net.Def(g) == s.net.Def(g);
    assert forall g :: g in s.ledger.settled ==> g in Forced(s, p, x).ledger.settled by {
      forall g ensures g in s.ledger.settled ==> g in Forced(s, p, x).ledger.settled {
        KeepsSettled(s.ledger, Forced(s, p, x).ledger, g);
      }
    }
  }

  lemma ForcedFrame(s: State, p: Id, x: Settlement)
    ensures Forced(s, p, x).net.defs == s.net.defs && Forced(s, p, x).storage == s.storage
  {
  }

  /** All groups but `g` are complete, and of `g` the first `n` slots exist. */
  ghost predicate OpenedBut(s: State, g: Id, n: nat) {
    && (forall h :: s.net.Def(h).Join? && h != g ==>
          if s.net.Def(h).inputs == [] then h in s.ledger.settled else h in s.storage)
    && (forall h, i ::
          (s.net.Def(h).Join? || s.net.Def(h).Any?) && 0 <= i < |s.net.Def(h).slots| && (h == g ==> i < n) ==>
          s.net.Def(s.net.Def(h).slots[i]).Derived?)
  }

  lemma GroupOpened(s: State, g: Id, group: Def)
    requires Opened(s) && s.net.Def(g).Source? && (group.Join? || group.Any?)
    ensures OpenedBut(s.(net := Grouping(s.net, g, group)), g, 0)
  {
    var t := s.(net := Grouping(s.net, g, group));
    forall h, i | (t.net.Def(h).Join? || t.net.Def(h).Any?) && 0 <= i < |t.net.Def(h).slots| && h != g
      ensures t.net.Def(t.net.Def(h).slots[i]).Derived?
    {
      assert t.net.Def(h) == s.net.Def(h);
      assert s.net.Def(s.net.Def(h).slots[i]).Derived?;
    }
  }

  lemma SlotOpened(s: State, g: Id, i: nat, p: Id, f: Option<Handler>)
    requires OpenedBut(s, g, i) && Underway(s, g, i) && i < |s.net.Def(g).slots|
    ensures OpenedBut(Chained(s, p, f, None, s.net.Def(g).slots[i]), g, i + 1)
  {
    var d := s.net.Def(g).slots[i];
    var t := Chained(s, p, f, None, d);
    assert s.net.Def(d).Source? && forall e :: e != d ==> t.net.Def(e) == s.net.Def(e);
  }

  lemma AllOpened(s: State, g: Id, n: nat)
    requires OpenedBut(s, g, n) && (s.net.Def(g).Join? || s.net.Def(g).Any?) && n == |s.net.Def(g).slots|
    requires s.net.Def(g).Join? ==> if s.net.Def(g).inputs == [] then g in s.ledger.settled else g in s.storage
    ensures Opened(s)
  {
  }

  lemma StoredOpened(s: State, g: Id, n: nat, st: Storage)
    requires OpenedBut(s, g, n)
    ensures OpenedBut(s.(storage := s.storage[g := st]), g, n)
  {
  }

  lemma SettledOpened(s: State, g: Id, n: nat, x: Settlement)
    requires OpenedBut(s, g, n)
    ensures OpenedBut(Settle(s, g, x), g, n) && g in Settle(s, g, x).ledger.settled && Settle(s, g, x).net == s.net
  {
  }

  lemma EmptyJoinGood(s: State, g: Id)
    requires Good(s, Idle) && s.net.Def(g).Join? && s.net.Def(g).inputs == []
    ensures Good(Settle(s, g, Resolved(List([]))), Idle)
  {
    hide Core, Groups, Settle, Allowed;
    CoreJustified(s, Idle);
    if g !in s.ledger.settled {
      EmptyJoinAllowed(s.net, s.ledger, g);
    }
    SettleGood(s, Idle, g, Resolved(List([])));
  }

  // ---- the exception, on the smallest network ------------------------------------------------

  function Initial(code: Code): State {
    State(Net(code, map[], map[], map[]), Ledger(map[], map[], 0), Board(map[], map[]), Stack({}, map[], 0), map[], [])
  }

  lemma InitialGood(code: Code)
    ensures Good(Initial(code), Idle) && Opened(Initial(code))
  {
  }

  /** Promise 0 is resolved, `then` on it gives promise 1, and the handler returns promise 0. */
  function SelfReturnBegun(code: Code, v: Value): State {
    Chained(Forced(Initial(code), 0, Resolved(v)), 0, Some(User(0)), None, 1)
  }

  lemma SelfReturnBegins(code: Code, v: Value)
    ensures var s := SelfReturnBegun(code, v);
      && Good(s, Idle) && Opened(s) && s.net.Def(1) == Derived(0, Some(User(0)), None) && s.net.code == code
      && s.ledger.settled == map[0 := Resolved(v)] && s.stack.count == 1 && s.stack.pending == map[0 := 0]
      && s.stack.isPending == {0} && s.board.Waiting(0) == [Closure(1, Some(User(0)), None)]
  {
    hide Good, Opened, Grouped;
    var s0 := Initial(code);
    InitialGood(code);
    ForcedGood(s0, 0, Resolved(v));
    ForcedOpened(s0, 0, Resolved(v));
    var s1 := Forced(s0, 0, Resolved(v));
    GoodGrouped(s1, Idle);
    UserGrouped(s1.net, 1, 0, Some(User(0)), None);
    ChainedGood(s1, 0, Some(User(0)), None, 1);
    ChainedOpened(s1, 0, Some(User(0)), None, 1);
  }

  /** The dispatch of promise 0 is the whole drain: then nothing is pending any more, and
      promise 1 has a meaning but is not settled. */
  lemma SelfReturnStuck(code: Code, v: Value)
    requires code(0, v) == Adopted(0)
    ensures var s := SelfReturnBegun(code, v);
      && Good(s, Idle) && Opened(s) && s.stack.count == 1
      && s.stack.count - 1 in s.stack.pending && s.stack.pending[s.stack.count - 1] in s.ledger.settled
      && AtRest(Dispatched(s)) && SelfReturned(Dispatched(s), 1) && !Complete(Dispatched(s))
  {
    hide Good, Opened, Complete, Core, Groups, Meaning, SelfReturnBegun;
    var s := SelfReturnBegun(code, v);
    SelfReturnBegins(code, v);
    var c := Closure(1, Some(User(0)), None);
    DispatchedGood(s);
    assert [c][1..] == [];
    assert CallAll(Popped(s), [c], Resolved(v)) == CallResult(Popped(s), c, Resolved(v));
    CompleteIffNoSelfReturn(Dispatched(s));
  }

  // ---- an any-promise that does not take the first input to resolve ------------------------------

  /** Promise 2 is the any-promise of 0 and 1; 0 is resolved and then 1, before anything is
      dispatched. */
  function RaceBegun(code: Code, v: Value, w: Value): State {
    Forced(Forced(GroupMade(Initial(code), 2, Any([0, 1], [3, 4])), 0, Resolved(v)), 1, Resolved(w))
  }

  lemma RaceBegins(code: Code, v: Value, w: Value)
    ensures var s := RaceBegun(code, v, w);
      && s.ledger == Ledger(map[0 := Resolved(v), 1 := Resolved(w)], map[0 := 0, 1 := 1], 2)
      && s.stack == Stack({0, 1}, map[0 := 0, 1 := 1], 2)
      && s.board.Waiting(1) == [Closure(4, Some(First(2, 1)), None)] && s.net.Def(2) == Any([0, 1], [3, 4])
  {
    var group := Any([0, 1], [3, 4]);
    var s0 := Initial(code);
    var s1 := SlotsMade(s0, 2, group, 1);
    assert SlotsMade(s0, 2, group, 0).board == s0.board;
    assert s1 == Chained(SlotsMade(s0, 2, group, 0), 0, Some(First(2, 0)), None, 3);
    assert SlotsMade(s0, 2, group, 2) == Chained(s1, 1, Some(First(2, 1)), None, 4);
  }

  /** The first dispatch is that of promise 1. */
  lemma RaceRuns(code: Code, v: Value, w: Value)
    ensures var s := RaceBegun(code, v, w);
      && s.stack.count - 1 in s.stack.pending && s.stack.pending[s.stack.count - 1] in s.ledger.settled
      && 2 in Dispatched(s).ledger.settled && Dispatched(s).ledger.settled[2] == Resolved(w)
  {
    hide RaceBegun;
    var s := RaceBegun(code, v, w);
    RaceBegins(code, v, w);
    var c := Closure(4, Some(First(2, 1)), None);
    assert CallAll(Popped(s), [c], Resolved(w)) == CallResult(Popped(s), c, Resolved(w)) by {
      assert [c][1..] == [];
    }
  }

  /** The whole run, as the program and the main loop do it: input 0 has resolved first, and
      the any-promise has the value of input 1. */
  method LaterInputWins(code: Code, v: Value, w: Value) returns (e: EventModule)
    ensures e.Ready() && AtRest(e.St()) && e.St().net.Def(2) == Any([0, 1], [3, 4])
    ensures 0 in e.rank && 1 in e.rank && e.rank[0] < e.rank[1]
    ensures 0 in e.settled && e.settled[0] == Resolved(v) && 2 in e.settled && e.settled[2] == Resolved(w)
  {
    hide Good, Opened, GroupMade, Forced, Rounds, Dispatched;
    e := new EventModule(code);
    RaceGroupable(code);
    var a := Objects([Promise(0), Promise(1)]);
    assert Ids(a) == [0, 1];
    var thrown := e.AnyPromise(a, 2, [3, 4]);
    e.SettleByProgram(0, Resolved(v));
    e.SettleByProgram(1, Resolved(w));
    ghost var s := e.St();
    RaceBegins(code, v, w);
    RaceRuns(code, v, w);
    ghost var n := e.OnIdle();
    RaceEnds(s, e.St(), n);
    assert Onward(s, e.St());
  }

  lemma RaceGroupable(code: Code)
    ensures Groupable(Initial(code), 2, Any([0, 1], [3, 4]))
  {
  }

  lemma RaceEnds(s: State, t: State, n: nat)
    requires Good(s, Idle) && Opened(s) && s.stack.count > 0 && t == Rounds(s, n) && t.stack.count == 0
    ensures s.stack.count - 1 in s.stack.pending && s.stack.pending[s.stack.count - 1] in s.ledger.settled
    ensures Onward(Dispatched(s), t)
  {
    hide Good, Opened, Dispatched, Onward;
    DispatchedGood(s);
    RoundsGood(Dispatched(s), n - 1);
  }

  // ---- a handler that throws, another of the same promise, and what catches -----------------------

  /** Promises 1 and 2 are made by `then` of promise 0, which is resolved, and 3 by `catch` of 1. */
  function ThrowBegun(code: Code, v: Value): State {
    Chained(Chained(Chained(Forced(Initial(code), 0, Resolved(v)), 0, Some(User(0)), None, 1),
      0, Some(User(1)), None, 2), 1, None, Some(User(2)), 3)
  }

  lemma ThrowBegins(code: Code, v: Value)
    ensures var s := ThrowBegun(code, v);
      && s.net.defs == map[1 := Derived(0, Some(User(0)), None), 2 := Derived(0, Some(User(1)), None),
                           3 := Derived(1, None, Some(User(2)))]
      && s.net.code == code && s.net.forced == map[0 := Resolved(v)] && s.ledger.settled == map[0 := Resolved(v)]
      && s.stack == Stack({0}, map[0 := 0], 1) && s.calls == []
      && s.board.Waiting(0) == [Closure(1, Some(User(0)), None), Closure(2, Some(User(1)), None)]
  {
  }

  /** The handlers of one promise are called in the order of registration. */
  lemma ThrowCalls(s: State, v: Value)
    requires s.board.Waiting(0) == [Closure(1, Some(User(0)), None), Closure(2, Some(User(1)), None)]
    ensures Called(s.board.Waiting(0), Resolved(v)) == [1, 2]
  {
    var c, d := Closure(1, Some(User(0)), None), Closure(2, Some(User(1)), None);
    assert [c, d] == [c] + [d] && [c] == [] + [c];
    CalledInOrder([], c, Resolved(v));
    CalledInOrder([c], d, Resolved(v));
  }

  /** What it settles to, with nothing pending any more. */
  lemma ThrowEnds(s: State, t: State, v: Value)
    requires AtRest(t) && Onward(s, t) && s.net.code(0, v).Threw? && s.net.code(1, v).Returned?
    requires s.net.code(2, s.net.code(0, v).error).Returned?
    requires s == ThrowBegun(s.net.code, v)
    ensures {0, 1, 2, 3} <= t.ledger.settled.Keys
    ensures t.ledger.settled[1] == Rejected(s.net.code(0, v).error)
    ensures t.ledger.settled[2] == Resolved(s.net.code(1, v).value)
    ensures t.ledger.settled[3] == Resolved(s.net.code(2, s.net.code(0, v).error).value)
  {
    hide AtRest, Onward, ThrowBegun;
    ThrowBegins(s.net.code, v);
    OnwardSettled(s, t, 0);
    RestCore(t);
    ResolvedSettles(t, 1, 0, Some(User(0)), None, v);
    AfterResolved(t, Idle, 1, 0, Some(User(0)), None, v);
    ResolvedSettles(t, 2, 0, Some(User(1)), None, v);
    AfterResolved(t, Idle, 2, 0, Some(User(1)), None, v);
    RejectedSettles(t, 3, 1, None, Some(User(2)), s.net.code(0, v).error);
    AfterRejected(t, Idle, 3, 1, None, Some(User(2)), s.net.code(0, v).error);
  }

  lemma OnwardSettled(s: State, t: State, p: Id)
    requires Onward(s, t) && p in s.ledger.settled
    ensures p in t.ledger.settled && t.ledger.settled[p] == s.ledger.settled[p]
    ensures t.net.defs == s.net.defs && t.net.code == s.net.code && t.net.forced == s.net.forced
  {
  }

  lemma RestCore(s: State)
    requires AtRest(s)
    ensures Core(s, Idle)
  {
    hide Core, Groups, Opened;
  }

  method ThrowStart(code: Code, v: Value) returns (e: EventModule)
    ensures fresh(e) && e.Ready() && e.St() == ThrowBegun(code, v)
  {
    hide Good, Opened, Forced, Chained, Unused, Unreserved;
    e := new EventModule(code);
    e.SettleByProgram(0, Resolved(v));
    ThrowRoom(code, v);
    e.Then(0, Some(0), None, 1);
    e.Then(0, Some(1), None, 2);
    e.Then(1, None, Some(2), 3);
  }

  /** The whole run: the promise of the handler that threw is rejected with what it threw. */
  method ThrowRejects(code: Code, v: Value) returns (e: EventModule)
    requires code(0, v).Threw? && code(1, v).Returned? && code(2, code(0, v).error).Returned?
    ensures e.Ready() && AtRest(e.St()) && {1, 2, 3} <= e.settled.Keys
    ensures e.settled[1] == Rejected(code(0, v).error)
    ensures e.settled[2] == Resolved(code(1, v).value)
    ensures e.settled[3] == Resolved(code(2, code(0, v).error).value)
    ensures [1, 2] <= e.calls
  {
    hide Good, Opened, ThrowBegun, Rounds, Onward, AtRest;
    e := ThrowStart(code, v);
    ghost var s := e.St();
    ghost var n := e.OnIdle();
    ThrowBegins(code, v);
    ThrowEnds(s, e.St(), v);
    ThrowFirst(s, e.St(), n, v);
  }

  lemma ThrowFirst(s: State, t: State, n: nat, v: Value)
    requires s == ThrowBegun(s.net.code, v) && Good(s, Idle) && Opened(s) && AtRest(t) && t == Rounds(s, n)
    ensures [1, 2] <= t.calls
  {
    hide Good, Opened, ThrowBegun, Rounds, Dispatched, Called, Onward;
    ThrowBegins(s.net.code, v);
    RaceEnds(s, t, n);
    ThrowCalls(s, v);
    FirstCalls(s, t);
  }

  lemma FirstCalls(s: State, t: State)
    requires Good(s, Idle) && Opened(s) && s.stack.count > 0 && s.stack.count - 1 in s.stack.pending
    requires s.stack.pending[s.stack.count - 1] in s.ledger.settled && Onward(Dispatched(s), t)
    ensures var p := s.stack.pending[s.stack.count - 1];
      s.calls + Called(s.board.Waiting(p), s.ledger.settled[p]) <= t.calls
  {
    hide Good, Opened, Dispatched, Called;
    DispatchedGood(s);
  }

  lemma ThrowRoom(code: Code, v: Value)
    ensures var s := Forced(Initial(code), 0, Resolved(v));
      && Unused(s, 1) && Unreserved(s.net, 1)
      && var t := Chained(s, 0, Some(User(0)), None, 1);
        && Unused(t, 2) && Unreserved(t.net, 2)
        && var u := Chained(t, 0, Some(User(1)), None, 2);
          Unused(u, 3) && Unreserved(u.net, 3)
  {
  }

  class EventModule {
    const code: Code
    var settled: map<Id, Settlement>      // ___resolved and ___rejected of each promise
    var handlers: map<Id, seq<Closure>>   // ___handlers of each promise
    var isPending: set<Id>                // the promises with is_pending
    var pending: map<int, Id>             // pending_promise_%d
    var pendingCount: int                 // pending_count
    var storage: map<Id, Storage>         // of each join
    var idle: bool                        // the idle watcher is active
    ghost var defs: map<Id, Def>
    ghost var stage: map<Id, Stage>
    ghost var forced: map<Id, Settlement>
    ghost var raced: map<Id, nat>
    ghost var rank: map<Id, nat>
    ghost var clock: nat
    ghost var calls: seq<Id>

    ghost function St(): State
      reads this
    {
      State(Net(code, defs, forced, raced), Ledger(settled, rank, clock), Board(handlers, stage),
            Stack(isPending, pending, pendingCount), storage, calls)
    }

    /** Between two calls from outside: the invariant holds, and pending work will be done. */
    ghost predicate Ready()
      reads this
    {
      Good(St(), Idle) && Opened(St()) && (pendingCount > 0 ==> idle)
    }

    constructor (c: Code)
      ensures Ready() && St() == Initial(c)
      ensures settled == map[] && handlers == map[] && isPending == {} && pending == map[] && pendingCount == 0
      ensures storage == map[] && defs == map[] && calls == []
    {
      code := c;
      settled, handlers, isPending, pending, pendingCount, storage, idle := map[], map[], {}, map[], 0, map[], false;
      defs, stage, forced, raced, rank, clock, calls := map[], map[], map[], map[], map[], 0, [];
      new;
      InitialGood(c);
    }

    /** di_promise_start_dispatch */
    method StartDispatch(p: Id)
      modifies this`isPending, this`pending, this`pendingCount, this`idle
      ensures St() == old(St()).(stack := Schedule(old(St()).stack, p))
      ensures p in old(isPending) ==>
        pending == old(pending) && pendingCount == old(pendingCount) && isPending == old(isPending)
      ensures p !in old(isPending) ==>
        && pending == old(pending)[old(pendingCount) := p] && pendingCount == old(pendingCount) + 1
        && isPending == old(isPending) + {p}
      ensures idle == (old(idle) || p !in old(isPending))
    {
      if p in isPending {
        return;
      }
      idle := true;
      pending := pending[pendingCount := p];
      pendingCount := pendingCount + 1;
      isPending := isPending + {p};
    }

    /** di_promise_add_handler */
    method AddHandler(p: Id, c: Closure)
      modifies this`handlers, this`isPending, this`pending, this`pendingCount, this`idle
      ensures St() == Enlist(old(St()), p, c)
      ensures handlers == old(handlers)[p := (if p in old(handlers) then old(handlers)[p] else []) + [c]]
      ensures p !in settled || p in old(isPending) ==> isPending == old(isPending) && pending == old(pending)
      ensures p in settled && p !in old(isPending) ==>
        isPending == old(isPending) + {p} && pending == old(pending)[old(pendingCount) := p]
      ensures old(idle) ==> idle
      ensures pendingCount > old(pendingCount) ==> idle
    {
      if p !in handlers {
        handlers := handlers[p := []];
      }
      handlers := handlers[p := handlers[p] + [c]];
      if p in settled {
        StartDispatch(p);
      }
    }

    /** di_promise_resolve */
    method Resolve(p: Id, v: Value)
      modifies this`settled, this`rank, this`clock, this`isPending, this`pending, this`pendingCount, this`idle
      ensures St() == Settle(old(St()), p, Resolved(v))
      ensures p in old(settled) ==> settled == old(settled) && pending == old(pending) && isPending == old(isPending)
      ensures p !in old(settled) ==> settled == old(settled)[p := Resolved(v)] && p in isPending
      ensures p !in old(settled) && p !in old(isPending) ==> pending == old(pending)[old(pendingCount) := p]
      ensures old(idle) ==> idle
      ensures pendingCount > old(pendingCount) ==> idle
    {
      if p in settled {
        return;
      }
      settled, rank, clock := settled[p := Resolved(v)], rank[p := clock], clock + 1;
      StartDispatch(p);
    }

    /** di_promise_reject */
    method Reject(p: Id, e: Value)
      modifies this`settled, this`rank, this`clock, this`isPending, this`pending, this`pendingCount, this`idle
      ensures St() == Settle(old(St()), p, Rejected(e))
      ensures p in old(settled) ==> settled == old(settled) && pending == old(pending) && isPending == old(isPending)
      ensures p !in old(settled) ==> settled == old(settled)[p := Rejected(e)] && p in isPending
      ensures p !in old(settled) && p !in old(isPending) ==> pending == old(pending)[old(pendingCount) := p]
      ensures old(idle) ==> idle
      ensures pendingCount > old(pendingCount) ==> idle
    {
      if p in settled {
        return;
      }
      settled, rank, clock := settled[p := Rejected(e)], rank[p := clock], clock + 1;
      StartDispatch(p);
    }

    /** di_promise_join_handler */
    method JoinHandler(i: nat, g: Id, v: Value)
      requires g in storage
      requires var st := Stored(storage[g], i, v); st.left == 0 ==> Full(st)
      modifies this`settled, this`rank, this`clock, this`isPending, this`pending, this`pendingCount, this`idle,
        this`storage
      ensures St() == Joined(old(St()), g, Stored(old(storage)[g], i,
        v)).(storage := old(storage)[g := Stored(old(storage)[g], i, v)])
      ensures storage == old(storage)[g :=
        Storage(old(storage)[g].stored[i := v], old(storage)[g].left - 1, old(storage)[g].total)]
      ensures old(storage)[g].left != 1 || g in old(settled) ==> settled == old(settled)
      ensures old(storage)[g].left == 1 && g !in old(settled) ==>
        && settled.Keys == old(settled).Keys + {g}
        && (forall p :: p in old(settled) ==> settled[p] == old(settled)[p])
        && settled[g].Resolved? && settled[g].value.List? && |settled[g].value.items| == storage[g].total
        && forall k :: 0 <= k < storage[g].total ==>
             k in storage[g].stored && settled[g].value.items[k] == storage[g].stored[k]
      ensures old(idle) ==> idle
      ensures pendingCount > old(pendingCount) ==> idle
    {
      var st := storage[g];
      storage := storage[g := Storage(st.stored[i := v], st.left - 1, st.total)];
      if storage[g].left == 0 {
        var results: seq<Value> := [];
        for k := 0 to st.total
          invariant |results| == k && forall m :: 0 <= m < k ==> results[m] == Stored(st, i, v).stored[m]
        {
          results := results + [storage[g].stored[k]];
        }
        assert results == Results(Stored(st, i, v));
        Resolve(g, List(results));
      }
    }

    /** di_any_promise_handler */
    method AnyHandler(g: Id, v: Value, ghost i: nat)
      modifies this`settled, this`rank, this`clock, this`isPending, this`pending, this`pendingCount, this`idle,
        this`raced
      ensures St() == Raced(old(St()), g, i, Resolved(v))
      ensures settled == if g in old(settled) then old(settled) else old(settled)[g := Resolved(v)]
      ensures old(idle) ==> idle
      ensures pendingCount > old(pendingCount) ==> idle
    {
      if g !in settled {
        raced := raced[g := i];
      }
      Resolve(g, v);
    }

    /** The part of di_promise_handler_closure that calls the program's handler. */
    method CallUser(c: Closure, k: nat, x: Settlement)
      requires c.For(x) == Some(User(k))
      modifies this
      ensures St() == CallResult(old(St()), c, x)
      ensures var reply := code(k, if x.Resolved? then x.value else x.error);
        && (reply.Failed? ==> settled == old(settled) && handlers == old(handlers))
        && (reply.Returned? ==> handlers == old(handlers) && settled == if c.target in old(settled) then old(settled)
                                else old(settled)[c.target := Resolved(reply.value)])
        && (reply.Threw? ==> handlers == old(handlers) && settled == if c.target in old(settled) then old(settled)
                             else old(settled)[c.target := Rejected(reply.error)])
        && (reply.Adopted? ==> settled == old(settled) && reply.promise in handlers && |handlers[reply.promise]| > 0
                               && handlers[reply.promise][|handlers[reply.promise]| - 1]
                                  == Closure(c.target, None, None))
      ensures calls == old(calls) + [c.target]
      ensures old(idle) ==> idle
      ensures pendingCount > old(pendingCount) ==> idle
    {
      hide Settle, Enlist;
      match code(k, x.Payload()) {
        case Failed =>
          stage, calls := stage[c.target := Finished], calls + [c.target];
        case Threw(e) =>
          Reject(c.target, e);
          SettleSame(old(St()), c.target, Rejected(e));
          stage, calls := stage[c.target := Finished], calls + [c.target];
        case Returned(v) =>
          Resolve(c.target, v);
          SettleSame(old(St()), c.target, Resolved(v));
          stage, calls := stage[c.target := Finished], calls + [c.target];
        case Adopted(q) =>
          stage, calls := stage[c.target := Following(q)], calls + [c.target];
          AddHandler(q, Closure(c.target, None, None));
      }
    }

    /** Its part for a closure without a handler for what the promise settled to. */
    method PassOn(c: Closure, x: Settlement)
      requires c.For(x) == None
      modifies this
      ensures St() == CallResult(old(St()), c, x)
      ensures settled == (if c.target in old(settled) then old(settled) else old(settled)[c.target := x])
      ensures calls == old(calls)
      ensures old(idle) ==> idle
      ensures pendingCount > old(pendingCount) ==> idle
    {
      hide Settle;
      if x.Resolved? {
        Resolve(c.target, x.value);
      } else {
        Reject(c.target, x.error);
      }
      SettleSame(old(St()), c.target, x);
      stage := stage[c.target := Finished];
    }

    /** Its part for a closure whose handler is that of a join. */
    method CallGatherer(c: Closure, x: Settlement, g: Id, i: nat, ghost p: Id, ghost rest: seq<Closure>)
      requires Good(St(), Busy(p, [c] + rest)) && Opened(St()) && p in settled && settled[p] == x
      requires c.For(x) == Some(Slot(g, i))
      modifies this
      ensures St() == CallResult(old(St()), c, x)
      ensures old(idle) ==> idle
      ensures pendingCount > old(pendingCount) ==> idle
    {
      hide Good, Opened, CallDone, Joined, Stored, Full, Settle;
      ghost var s := St();
      CallSlot(s, p, c, rest, g, i);
      JoinHandler(i, g, x.value);
      SettleStorage(Joined(s, g, Stored(s.storage[g], i, x.value)), storage, c.target, Resolved(Nil));
      Resolve(c.target, Nil);
      stage := stage[c.target := Finished];
    }

    /** di_promise_handler_closure, called by the dispatch of `p` with what `p` settled to. */
    method CallClosure(c: Closure, x: Settlement, ghost p: Id, ghost rest: seq<Closure>)
      requires Good(St(), Busy(p, [c] + rest)) && Opened(St()) && p in settled && settled[p] == x
      modifies this
      ensures St() == CallResult(old(St()), c, x)
      ensures old(idle) ==> idle
      ensures pendingCount > old(pendingCount) ==> idle
    {
      hide Good, Opened, CallDone, Raced, Joined, Stored, Full, Settle;
      ghost var s := St();
      match c.For(x) {
        case None =>
          PassOn(c, x);
        case Some(User(k)) =>
          CallUser(c, k, x);
        case Some(Slot(g, i)) =>
          CallGatherer(c, x, g, i, p, rest);
        case Some(First(g, i)) =>
          CallFirst(s, p, c, rest, g, i);
          AnyHandler(g, x.value, i);
          Resolve(c.target, Nil);
          stage := stage[c.target := Finished];
      }
    }

    /** di_handlers_dispatch */
    method DispatchHandlers(hs: seq<Closure>, x: Settlement, ghost p: Id)
      requires Good(St(), Busy(p, hs)) && Opened(St()) && p in settled && settled[p] == x
      modifies this
      ensures St() == CallAll(old(St()), hs, x)
    {
      hide Good, Opened, CallDone, CallResult;
      ghost var s := St();
      DoneStart(s, p, hs);
      assert hs[0..] == hs;
      for i := 0 to |hs|
        invariant CallDone(s, St(), p, hs[i..])
        invariant CallAll(St(), hs[i..], x) == CallAll(s, hs, x)
      {
        ghost var t := St();
        DoneSettled(s, t, p, hs[i..], x);
        assert hs[i..] == [hs[i]] + hs[i + 1..];
        CallResultDone(t, p, hs[i], hs[i + 1..]);
        CallClosure(hs[i], x, p, hs[i + 1..]);
        DoneBoth(s, t, St(), p, hs[i..], hs[i + 1..]);
      }
    }

    /** di_promise_dispatch, right after `p` has been taken off the stack of `s`. */
    method Dispatch(p: Id, ghost s: State)
      requires Good(s, Idle) && Opened(s) && s.stack.count > 0 && s.stack.count - 1 in s.stack.pending
      requires St() == Unstacked(s) && p == s.stack.pending[s.stack.count - 1]
      modifies this
      ensures p in s.ledger.settled && St() == Dispatched(s)
    {
      hide Good, Opened, Onward, Load, CallAll;
      PopGood(s);
      var hs := [];
      if p in handlers {
        hs := handlers[p];
      }
      handlers := handlers - {p};
      assert St() == Popped(s) && PoppedTurn(s) == Busy(p, hs);
      if settled[p].Resolved? {
        DispatchHandlers(hs, settled[p], p);
      } else if |hs| > 0 {
        DispatchHandlers(hs, settled[p], p);
      } else {
        NoCalls(St(), settled[p]);
      }
      isPending := isPending - {p};
    }

    /** di_idle_cb: dispatches until nothing is pending. */
    method OnIdle() returns (ghost n: nat)
      requires Ready()
      modifies this
      ensures Ready() && AtRest(St()) && Onward(old(St()), St())
      ensures St() == Rounds(old(St()), n)
    {
      hide Good, Opened, Onward, Load, Unstacked, Dispatched;
      ghost var start := St();
      OnwardItself(start);
      idle, n := false, 0;
      while pendingCount != 0
        invariant Good(St(), Idle) && Opened(St()) && Onward(start, St())
        invariant St() == Rounds(start, n)
        decreases Load(St())
      {
        ghost var s := St();
        LoadNat(s, Idle);
        DispatchedGood(s);
        RoundsMore(start, n);
        var p := pending[pendingCount - 1];
        pending := pending - {pendingCount - 1};
        pendingCount := pendingCount - 1;
        UnstackedIs(s, St());
        Dispatch(p, s);
        LoadNat(St(), Idle);
        OnwardBoth(start, s, St());
        n := n + 1;
      }
    }

    /** A promise is resolved or rejected by the program. */
    method SettleByProgram(p: Id, x: Settlement)
      requires Ready()
      modifies this
      ensures Ready() && St() == Forced(old(St()), p, x)
      ensures settled == if p in old(settled) then old(settled) else old(settled)[p := x]
      ensures p !in old(settled) ==> p in isPending
    {
      hide Good, Opened, Settle;
      ghost var s := St();
      ForcedGood(s, p, x);
      ForcedOpened(s, p, x);
      if p !in settled {
        forced := forced[p := x];
      }
      match x {
        case Resolved(v) => Resolve(p, v);
        case Rejected(e) => Reject(p, e);
      }
      SettledTwice(s, p, x);
    }

    /** di_promise_then_inner: the new promise is at the free address `d`. */
    method ThenInner(p: Id, f: Option<Handler>, r: Option<Handler>, d: Id)
      modifies this
      ensures St() == Chained(old(St()), p, f, r, d)
      ensures defs == old(defs)[d := Derived(p, f, r)]
      ensures handlers == old(handlers)[p := (if p in old(handlers) then old(handlers)[p] else []) + [Closure(d, f, r)]]
      ensures settled == old(settled) && (p in settled ==> p in isPending)
      ensures old(idle) ==> idle
      ensures pendingCount > old(pendingCount) ==> idle
    {
      defs, stage := defs[d := Derived(p, f, r)], stage[d := Fresh];
      AddHandler(p, Closure(d, f, r));
    }

    /** di_promise_then, di_promise_catch and di_promise_finally: handlers of the program. */
    method Then(p: Id, f: Option<nat>, r: Option<nat>, d: Id)
      requires Ready() && Unused(St(), d) && Unreserved(St().net, d)
      modifies this
      ensures Ready() && St() == Chained(old(St()), p, Lifted(f), Lifted(r), d)
      ensures var onResolve := if f.Some? then Some(User(f.value)) else None;
        var onReject := if r.Some? then Some(User(r.value)) else None;
        && defs == old(defs)[d := Derived(p, onResolve, onReject)]
        && handlers == old(handlers)[p := (if p in old(handlers) then old(handlers)[p] else [])
                                     + [Closure(d, onResolve, onReject)]]
      ensures settled == old(settled) && (p in settled ==> p in isPending)
    {
      hide Good, Opened, Chained, Unreserved;
      ghost var s := St();
      GoodGrouped(s, Idle);
      UserGrouped(s.net, d, p, Lifted(f), Lifted(r));
      ChainedGood(s, p, Lifted(f), Lifted(r), d);
      ChainedOpened(s, p, Lifted(f), Lifted(r), d);
      ThenInner(p, Lifted(f), Lifted(r), d);
    }

    /** di_join_promises after its checks, with free addresses for the result and for the promises
        that `then` makes. */
    method MakeJoin(ps: seq<Id>, g: Id, slots: seq<Id>)
      requires Ready() && Groupable(St(), g, Join(ps, slots))
      modifies this
      ensures |slots| == |ps| && Ready() && St() == GroupMade(old(St()), g, Join(ps, slots))
    {
      hide Good, Opened, OpenedBut, Chained, Settle, Underway, Groupable;
      ghost var s, group := St(), Join(ps, slots);
      GroupGood(s, g, Join(ps, slots));
      GroupableFacts(s, g, Join(ps, slots));
      GroupOpened(s, g, Join(ps, slots));
      defs := defs[g := Join(ps, slots)];
      if |ps| == 0 {
        EmptyJoinGood(St(), g);
        SettledOpened(St(), g, 0, Resolved(List([])));
        Resolve(g, List([]));
        AllOpened(St(), g, 0);
        return;
      }
      var cnt := 0;
      for i := 0 to |ps|
        invariant cnt == i && St().net.Def(g) == Join(ps, slots) && St() == SlotsMade(s, g, group, i)
        invariant Good(St(), Idle) && Underway(St(), g, i) && OpenedBut(St(), g, i) && (pendingCount > 0 ==> idle)
      {
        SlotMade(St(), g, i);
        SlotOpened(St(), g, i, ps[i], Some(Slot(g, i)));
        ThenInner(ps[i], Some(Slot(g, cnt)), None, slots[i]);
        cnt := cnt + 1;
      }
      OpenGood(St(), g, cnt);
      StoredOpened(St(), g, cnt, Storage(map[], cnt, cnt));
      storage := storage[g := Storage(map[], cnt, cnt)];
      AllOpened(St(), g, cnt);
    }

    /** The same of di_any_promise. */
    method MakeAny(ps: seq<Id>, g: Id, slots: seq<Id>)
      requires Ready() && Groupable(St(), g, Any(ps, slots))
      modifies this
      ensures |slots| == |ps| && Ready() && St() == GroupMade(old(St()), g, Any(ps, slots))
    {
      hide Good, Opened, OpenedBut, Chained, Settle, Underway, Groupable;
      ghost var s, group := St(), Any(ps, slots);
      GroupGood(s, g, Any(ps, slots));
      GroupableFacts(s, g, Any(ps, slots));
      GroupOpened(s, g, Any(ps, slots));
      defs := defs[g := Any(ps, slots)];
      for i := 0 to |ps|
        invariant St().net.Def(g) == Any(ps, slots) && St() == SlotsMade(s, g, group, i)
        invariant Good(St(), Idle) && Underway(St(), g, i) && OpenedBut(St(), g, i) && (pendingCount > 0 ==> idle)
      {
        SlotMade(St(), g, i);
        SlotOpened(St(), g, i, ps[i], Some(First(g, i)));
        ThenInner(ps[i], Some(First(g, i)), None, slots[i]);
      }
      AllOpened(St(), g, |ps|);
    }

    /** The check of the elements that both begin with. */
    method CheckPromises(elems: seq<Element>) returns (ok: bool)
      ensures ok <==> forall k :: 0 <= k < |elems| ==> elems[k].Promise?
    {
      for i := 0 to |elems|
        invariant forall k :: 0 <= k < i ==> elems[k].Promise?
      {
        if !elems[i].Promise? {
          return false;
        }
      }
      return true;
    }

    /** di_join_promises: an error is thrown for elements that are not promises. */
    method JoinPromises(a: Elements, g: Id, slots: seq<Id>) returns (thrown: bool)
      requires Ready() && (JoinTakes(a) ==> Groupable(St(), g, Join(Ids(a), slots)))
      modifies this
      ensures Ready() && (thrown <==> !JoinTakes(a))
      ensures if thrown then St() == old(St())
              else |slots| == |Ids(a)| && St() == GroupMade(old(St()), g, Join(Ids(a), slots))
      ensures thrown <==>
        if a.Objects? then exists k :: 0 <= k < |a.elems| && a.elems[k].OtherObject? else a.length > 0
      ensures !thrown ==>
        && g in defs && defs[g].Join? && defs[g].slots == slots && |defs[g].inputs| == |slots|
        && |slots| == (if a.Objects? then |a.elems| else 0)
        && forall i :: 0 <= i < |slots| ==> defs[g].inputs[i] == a.elems[i].id && SlotWaits(St(), g, defs[g], i)
      ensures !thrown && |slots| > 0 ==>
        storage == old(storage)[g := Storage(map[], |slots|, |slots|)] && settled == old(settled)
      ensures !thrown && |slots| == 0 ==> settled == old(settled)[g := Resolved(List([]))]
    {
      hide Good, Opened, Groupable, GroupMade, SlotWaits;
      ghost var s := St();
      if a.Others? {
        if a.length > 0 {
          return true;
        }
        MakeJoin([], g, slots);
        GroupMadeIs(s, g, Join([], slots));
        return false;
      }
      var ok := CheckPromises(a.elems);
      if !ok {
        return true;
      }
      MakeJoin(Ids(a), g, slots);
      GroupMadeIs(s, g, Join(Ids(a), slots));
      return false;
    }

    /** di_any_promise: so it is for an empty array whose element type is not object. */
    method AnyPromise(a: Elements, g: Id, slots: seq<Id>) returns (thrown: bool)
      requires Ready() && (AnyTakes(a) ==> Groupable(St(), g, Any(Ids(a), slots)))
      modifies this
      ensures Ready() && (thrown <==> !AnyTakes(a))
      ensures if thrown then St() == old(St())
              else |slots| == |Ids(a)| && St() == GroupMade(old(St()), g, Any(Ids(a), slots))
      ensures thrown <==> a.Others? || exists k :: 0 <= k < |a.elems| && a.elems[k].OtherObject?
      ensures !thrown ==>
        && g in defs && defs[g].Any? && defs[g].slots == slots && |defs[g].inputs| == |slots| == |a.elems|
        && settled == old(settled) && storage == old(storage)
        && forall i :: 0 <= i < |slots| ==> defs[g].inputs[i] == a.elems[i].id && SlotWaits(St(), g, defs[g], i)
    {
      hide Good, Opened, Groupable, GroupMade, SlotWaits;
      ghost var s := St();
      if a.Others? {
        return true;
      }
      var ok := CheckPromises(a.elems);
      if !ok {
        return true;
      }
      MakeAny(Ids(a), g, slots);
      GroupMadeIs(s, g, Any(Ids(a), slots));
      return false;
    }
  }

  datatype Element = Promise(id: Id) | OtherObject

  /** An array argument, by its element type: objects, or `length` elements of another type. */
  datatype Elements = Objects(elems: seq<Element>) | Others(length: nat)

  predicate AnyTakes(a: Elements) {
    a.Objects? && forall k :: 0 <= k < |a.elems| ==> a.elems[k].Promise?
  }

  predicate JoinTakes(a: Elements) {
    AnyTakes(a) || (a.Others? && a.length == 0)
  }

  function Ids(a: Elements): (ps: seq<Id>)
    requires JoinTakes(a)
    ensures |ps| == if a.Objects? then |a.elems| else 0
  {
    if a.Others? then [] else seq(|a.elems|, k requires 0 <= k < |a.elems| => a.elems[k].id)
  }

  function Lifted(f: Option<nat>): Option<Handler> {
    match f
    case None => None
    case Some(k) => Some(User(k))
  }

  lemma GoodGrouped(s: State, turn: Turn)
    requires Good(s, turn)
    ensures Grouped(s.net)
  {
    hide Core, Grouped, JoinOk, AnyOk;
  }

  lemma GroupableFacts(s: State, g: Id, group: Def)
    requires Groupable(s, g, group)
    ensures s.net.Def(g).Source? && |group.slots| == |group.inputs|
  {
  }

  lemma SettledTwice(s: State, p: Id, x: Settlement)
    ensures p in s.ledger.settled ==> Settle(s, p, x) == s
  {
  }

  lemma UnstackedIs(s: State, t: State)
    requires t == s.(stack := Stack(s.stack.isPending, s.stack.pending - {s.stack.count - 1}, s.stack.count - 1))
    ensures t == Unstacked(s)
  {
  }
}
