// The network grows: then, catch, join, any, and promises settled by the program itself.

module Building {
  import opened Base
  import opened Promises
  import opened Scheduling
  import opened Gathering

  // ---- then and catch ----------------------------------------------------------------

  /** The address `d` is not in use. */
  ghost predicate Unused(s: State, d: Id) {
    s.net.Def(d).Source? && d !in s.ledger.settled
  }

  function Deriving(net: Net, d: Id, p: Id, f: Option<Handler>, r: Option<Handler>): Net {
    net.(defs := net.defs[d := Derived(p, f, r)])
  }

  /** di_promise_then_inner: the new promise `d` and its closure, which waits for `p`. */
  function Chained(s: State, p: Id, f: Option<Handler>, r: Option<Handler>, d: Id): State {
    Enlist(s.(net := Deriving(s.net, d, p, f, r), board := Moved(s.board, d, Fresh)), p, Closure(d, f, r))
  }

  lemma DeriveJustified(net: Net, l: Ledger, d: Id, p: Id, f: Option<Handler>, r: Option<Handler>)
    requires Justified(net, l) && d !in l.settled
    ensures Justified(Deriving(net, d, p, f, r), l)
  {
    hide Allowed;
    NetJustified(net, Deriving(net, d, p, f, r), l);
  }

  lemma DeriveSits(net: Net, net1: Net, b: Board, d: Id, c: Closure, p: Id)
    requires Sits(net, b, c, p) && !net.Def(d).Derived? && forall e :: e != d ==> net1.Def(e) == net.Def(e)
    ensures Sits(net1, Moved(b, d, Fresh), c, p) && c.target != d
  {
  }

  lemma DeriveUnfinished(net: Net, net1: Net, b: Board, d: Id, e: Id)
    requires Unfinished(net1, Moved(b, d, Fresh), e) && e != d && net1.Def(e) == net.Def(e)
    ensures Unfinished(net, b, e) && Home(net, b, e) == Home(net1, Moved(b, d, Fresh), e)
  {
  }

  lemma DerivePlaced(net: Net, net1: Net, b: Board, d: Id)
    requires Placed(net, b, Idle) && !net.Def(d).Derived? && forall e :: e != d ==> net1.Def(e) == net.Def(e)
    ensures PlacedBut(net1, Moved(b, d, Fresh), Idle, d)
  {
    hide Sits, Distinct, Listed, Unfinished;
    var b1 := Moved(b, d, Fresh);
    forall p, k | 0 <= k < |Line(b1, Idle, p)|
      ensures Sits(net1, b1, Line(b1, Idle, p)[k], p) && Line(b1, Idle, p)[k].target != d
    {
      assert Line(b1, Idle, p)[k] == Line(b, Idle, p)[k];
      DeriveSits(net, net1, b, d, Line(b, Idle, p)[k], p);
    }
    forall p ensures Distinct(Line(b1, Idle, p)) {
      assert Line(b1, Idle, p) == Line(b, Idle, p);
    }
    forall e | e != d && Unfinished(net1, b1, e) ensures Listed(Line(b1, Idle, Home(net1, b1, e)), e) {
      DeriveUnfinished(net, net1, b, d, e);
    }
  }

  lemma DeriveStages(net: Net, l: Ledger, b: Board, d: Id, p: Id, f: Option<Handler>, r: Option<Handler>)
    requires Stages(net, l, b) && !net.Def(d).Derived?
    ensures Stages(Deriving(net, d, p, f, r), l, Moved(b, d, Fresh))
  {
    var net1, b1 := Deriving(net, d, p, f, r), Moved(b, d, Fresh);
    forall e | e in b1.stage ensures net1.Def(e).Derived? && StageOk(net1, l, e, b1.stage[e]) {
      if e != d {
        assert StageOk(net, l, e, b.stage[e]);
      }
    }
  }

  lemma DeriveAwake(net: Net, net1: Net, l: Ledger, b: Board, k: Stack, d: Id)
    requires Awake(net, l, b, k, Idle) && !net.Def(d).Derived? && forall e :: e != d ==> net1.Def(e) == net.Def(e)
    ensures Awake(net1, l, Moved(b, d, Fresh), k, Idle)
  {
    hide Deaf;
    var b1 := Moved(b, d, Fresh);
    forall q, i | Deaf(l, k, Idle, q) && 0 <= i < |b1.Waiting(q)| ensures SelfFollower(net1, b1, b1.Waiting(q)[i], q) {
      assert SelfFollower(net, b, b.Waiting(q)[i], q);
    }
  }

  lemma ChainedCore(s: State, p: Id, f: Option<Handler>, r: Option<Handler>, d: Id)
    requires Core(s, Idle) && Unused(s, d)
    ensures Core(Chained(s, p, f, r, d), Idle)
  {
    hide Justified, Stacked, Placed, PlacedBut, Stages, Awake, Sits;
    var net1, b1 := Deriving(s.net, d, p, f, r), Moved(s.board, d, Fresh);
    DeriveJustified(s.net, s.ledger, d, p, f, r);
    DerivePlaced(s.net, net1, s.board, d);
    DeriveStages(s.net, s.ledger, s.board, d, p, f, r);
    DeriveAwake(s.net, net1, s.ledger, s.board, s.stack, d);
    StageDerived(s.net, s.ledger, s.board, d);
    FreshSits(net1, b1, d, p, f, r);
    EnlistCore(s.(net := net1, board := b1), Idle, p, Closure(d, f, r));
  }

  lemma FreshSits(net: Net, b: Board, d: Id, p: Id, f: Option<Handler>, r: Option<Handler>)
    requires net.Def(d) == Derived(p, f, r) && d in b.stage && b.stage[d].Fresh?
    ensures Sits(net, b, Closure(d, f, r), p)
  {
  }

  lemma StageDerived(net: Net, l: Ledger, b: Board, d: Id)
    requires Stages(net, l, b)
    ensures d in b.stage <==> net.Def(d).Derived?
  {
    hide StageOk;
  }

  lemma DerivePassed(net: Net, net1: Net, l: Ledger, b: Board, b1: Board, d: Id, e: Id)
    requires !net.Def(d).Derived? && (e != d ==> net1.Def(e) == net.Def(e))
    requires b1.stage == b.stage[d := Fresh]
    ensures Passed(net1, l, b1, e) <==> Passed(net, l, b, e)
  {
  }

  /** The same is asked of the group in both networks. */
  lemma JoinNet(net: Net, net1: Net, l: Ledger, b: Board, b1: Board, g: Id, st: Storage)
    requires JoinOk(net, l, b, g, st) && net1.Def(g) == net.Def(g)
    requires forall e :: Passed(net1, l, b1, e) <==> Passed(net, l, b, e)
    ensures JoinOk(net1, l, b1, g, st)
  {
    hide Passed;
  }

  lemma AnyNet(net: Net, net1: Net, l: Ledger, b: Board, b1: Board, g: Id)
    requires net.Def(g).Any? && AnyOk(net, l, b, g) && net1.Def(g) == net.Def(g)
    requires forall e :: Passed(net1, l, b1, e) <==> Passed(net, l, b, e)
    ensures AnyOk(net1, l, b1, g)
  {
    hide Passed;
  }

  /** Groups do not notice a new derived promise, but for their own slots. */
  lemma DeriveGroups(net: Net, net1: Net, l: Ledger, b: Board, b1: Board, d: Id, storage: map<Id, Storage>)
    requires Groups(net, l, b, storage) && Grouped(net1) && net.Def(d).Source? && net1.Def(d).Derived?
    requires (forall e :: e != d ==> net1.Def(e) == net.Def(e)) && b1.stage == b.stage[d := Fresh]
    ensures Groups(net1, l, b1, storage)
  {
    hide Passed, Grouped, JoinOk, AnyOk;
    forall e ensures Passed(net1, l, b1, e) <==> Passed(net, l, b, e) {
      DerivePassed(net, net1, l, b, b1, d, e);
    }
    forall g | g in storage ensures JoinOk(net1, l, b1, g, storage[g]) {
      JoinIs(net, l, b, g, storage[g]);
      JoinNet(net, net1, l, b, b1, g, storage[g]);
    }
    forall g | net1.Def(g).Any? ensures AnyOk(net1, l, b1, g) {
      AnyNet(net, net1, l, b, b1, g);
    }
  }

  lemma ChainedGood(s: State, p: Id, f: Option<Handler>, r: Option<Handler>, d: Id)
    requires Good(s, Idle) && Unused(s, d) && Grouped(Deriving(s.net, d, p, f, r))
    ensures Good(Chained(s, p, f, r, d), Idle)
  {
    hide Core, Groups, Grouped;
    ChainedCore(s, p, f, r, d);
    DeriveGroups(s.net, Deriving(s.net, d, p, f, r), s.ledger, s.board, Chained(s, p, f, r, d).board, d, s.storage);
  }

  /** No group keeps the address `d` for a slot. */
  ghost predicate Unreserved(net: Net, d: Id) {
    forall g :: (net.Def(g).Join? || net.Def(g).Any?) ==> d !in net.Def(g).slots
  }

  ghost predicate UserHandler(f: Option<Handler>) {
    f.None? || f.value.User?
  }

  lemma UserGrouped(net: Net, d: Id, p: Id, f: Option<Handler>, r: Option<Handler>)
    requires Grouped(net) && net.Def(d).Source? && Unreserved(net, d) && UserHandler(f) && UserHandler(r)
    ensures Grouped(Deriving(net, d, p, f, r))
  {
    var net1 := Deriving(net, d, p, f, r);
    forall e | net1.Def(e).Derived? ensures HandlersOk(net1, e) {
      if e != d {
        assert HandlersOk(net, e);
      }
    }
    forall g ensures GroupOk(net1, g) {
      assert GroupOk(net, g);
    }
  }

  // ---- settled by the program ------------------------------------------------------------

  function Forcing(net: Net, p: Id, x: Settlement): Net {
    net.(forced := net.forced[p := x])
  }

  function Forced(s: State, p: Id, x: Settlement): State {
    if p in s.ledger.settled then s else Settle(s.(net := Forcing(s.net, p, x)), p, x)
  }

  lemma ForceJustified(net: Net, l: Ledger, p: Id, x: Settlement)
    requires Justified(net, l) && p !in l.settled
    ensures Justified(Forcing(net, p, x), Record(l, p, x)) && Keeps(l, Record(l, p, x))
  {
    hide Allowed;
    var net1, m := Forcing(net, p, x), Record(l, p, x);
    forall q | q in m.settled ensures Allowed(net1, m, q, m.settled[q], m.rank[q]) {
      if q == p {
        ForcedAllowed(net1, m, p, x, m.rank[p]);
      } else {
        AllowedStays(net, net1, l, m, q, m.settled[q], m.rank[q]);
      }
    }
  }

  lemma ForcedAllowed(net: Net, l: Ledger, p: Id, x: Settlement, clock: nat)
    requires p in net.forced && net.forced[p] == x
    ensures Allowed(net, l, p, x, clock)
  {
  }

  lemma ForcedGood(s: State, p: Id, x: Settlement)
    requires Good(s, Idle)
    ensures Good(Forced(s, p, x), Idle) && Keeps(s.ledger, Forced(s, p, x).ledger)
  {
    hide Justified, Stacked, Placed, Stages, Awake, CalledOnce, Groups, Keeps, SamePassed;
    KeepsItself(s.ledger);
    if p !in s.ledger.settled {
      var net1, l, k := Forcing(s.net, p, x), Record(s.ledger, p, x), Schedule(s.stack, p);
      ForceJustified(s.net, s.ledger, p, x);
      StackedStays(s.stack, s.ledger, l, Idle);
      ScheduleStacked(s.stack, l, Idle, p);
      NetPlaced(s.net, net1, s.board, Idle);
      StagesStay(s.net, s.ledger, l, s.board);
      NetStages(s.net, net1, l, s.board);
      AwakeStays(s.net, s.ledger, l, s.board, s.stack, k, Idle);
      NetAwake(s.net, net1, l, s.board, k, Idle);
      KeepsPassed(s.net, s.ledger, s.board, l, s.board);
      GroupsStay(s.net, s.ledger, s.board, l, s.board, s.storage);
      GroupsNet(s.net, net1, l, s.board, s.storage);
    }
  }

  // ---- join and any ------------------------------------------------------------------------

  function Grouping(net: Net, g: Id, group: Def): Net {
    net.(defs := net.defs[g := group])
  }

  /** `group` can be made at `g`: the addresses of its slots are kept for it alone. */
  ghost predicate Groupable(s: State, g: Id, group: Def) {
    && (group.Join? || group.Any?) && |group.slots| == |group.inputs|
    && Unused(s, g) && Unreserved(s.net, g)
    && (forall i :: 0 <= i < |group.slots| ==>
          Unused(s, group.slots[i]) && Unreserved(s.net, group.slots[i]) && group.slots[i] != g)
    && (forall i, j :: 0 <= i < j < |group.slots| ==> group.slots[i] != group.slots[j])
  }

  lemma GroupGrouped(net: Net, g: Id, group: Def)
    requires Grouped(net) && net.Def(g).Source? && (group.Join? || group.Any?) && |group.slots| == |group.inputs|
    requires forall i :: 0 <= i < |group.slots| ==> net.Def(group.slots[i]).Source? && group.slots[i] != g
    ensures Grouped(Grouping(net, g, group))
  {
    var net1 := Grouping(net, g, group);
    forall e | net1.Def(e).Derived? ensures HandlersOk(net1, e) {
      assert HandlersOk(net, e);
    }
    forall h ensures GroupOk(net1, h) {
      assert GroupOk(net, h);
    }
  }

  lemma GroupJustified(net: Net, l: Ledger, g: Id, group: Def)
    requires Justified(net, l) && g !in l.settled
    ensures Justified(Grouping(net, g, group), l)
  {
    hide Allowed;
    NetJustified(net, Grouping(net, g, group), l);
  }

  lemma GroupPassed(net: Net, net1: Net, l: Ledger, b: Board, e: Id)
    requires net1.Def(e) == net.Def(e) || (!net1.Def(e).Derived? && !net.Def(e).Derived?)
    ensures Passed(net1, l, b, e) <==> Passed(net, l, b, e)
  {
  }

  lemma GroupGroups(net: Net, l: Ledger, b: Board, storage: map<Id, Storage>, g: Id, group: Def)
    requires Groups(net, l, b, storage) && net.Def(g).Source? && (group.Join? || group.Any?)
    requires |group.slots| == |group.inputs|
    requires forall i :: 0 <= i < |group.slots| ==> net.Def(group.slots[i]).Source? && group.slots[i] != g
    ensures Groups(Grouping(net, g, group), l, b, storage)
  {
    hide Passed, Grouped, JoinOk, AnyOk;
    var net1 := Grouping(net, g, group);
    GroupGrouped(net, g, group);
    forall e ensures Passed(net1, l, b, e) <==> Passed(net, l, b, e) {
      GroupPassed(net, net1, l, b, e);
    }
    forall h | h in storage ensures JoinOk(net1, l, b, h, storage[h]) {
      JoinIs(net, l, b, h, storage[h]);
      JoinNet(net, net1, l, b, b, h, storage[h]);
    }
    forall h | net1.Def(h).Any? ensures AnyOk(net1, l, b, h) {
      if h == g {
        NoSlotPassed(net1, l, b, g);
      } else {
        AnyNet(net, net1, l, b, b, h);
      }
    }
  }

  lemma NoSlotPassed(net: Net, l: Ledger, b: Board, g: Id)
    requires net.Def(g).Any? && forall i :: 0 <= i < |net.Def(g).slots| ==> !net.Def(net.Def(g).slots[i]).Derived?
    ensures AnyOk(net, l, b, g)
  {
  }

  /** How far the loop of join and any has come: the slots from `n` on are still unused. */
  ghost predicate Underway(s: State, g: Id, n: nat) {
    && (s.net.Def(g).Join? || s.net.Def(g).Any?) && n <= |s.net.Def(g).slots| == |s.net.Def(g).inputs|
    && (forall i :: 0 <= i < n ==>
          s.net.Def(s.net.Def(g).slots[i]).Derived? && s.net.Def(g).slots[i] in s.board.stage
          && s.board.stage[s.net.Def(g).slots[i]].Fresh?)
    && (forall i :: n <= i < |s.net.Def(g).slots| ==> Unused(s, s.net.Def(g).slots[i]))
    && (forall i, j :: 0 <= i < j < |s.net.Def(g).slots| ==> s.net.Def(g).slots[i] != s.net.Def(g).slots[j])
    && (forall h, i :: h != g && (s.net.Def(h).Join? || s.net.Def(h).Any?) && 0 <= i < |s.net.Def(g).slots| ==>
          s.net.Def(g).slots[i] !in s.net.Def(h).slots)
  }

  lemma GroupGood(s: State, g: Id, group: Def)
    requires Good(s, Idle) && Groupable(s, g, group)
    ensures Good(s.(net := Grouping(s.net, g, group)), Idle) && Underway(s.(net := Grouping(s.net, g, group)), g, 0)
  {
    hide Core, Groups, Justified;
    CoreJustified(s, Idle);
    GroupJustified(s.net, s.ledger, g, group);
    NetCore(s, Grouping(s.net, g, group), Idle);
    GroupGroups(s.net, s.ledger, s.board, s.storage, g, group);
  }

  function SlotHandler(group: Def, g: Id, i: nat): Handler {
    if group.Join? then Slot(g, i) else First(g, i)
  }

  /** The group is made at `g`, and its first `n` slots wait for their inputs. */
  function SlotsMade(s: State, g: Id, group: Def, n: nat): State
    requires (group.Join? || group.Any?) && n <= |group.inputs| && |group.slots| == |group.inputs|
    decreases n
  {
    if n == 0 then s.(net := Grouping(s.net, g, group))
    else Chained(SlotsMade(s, g, group, n - 1), group.inputs[n - 1], Some(SlotHandler(group, g, n - 1)), None,
                 group.slots[n - 1])
  }

  /** di_join_promises and di_any_promise */
  function GroupMade(s: State, g: Id, group: Def): State
    requires (group.Join? || group.Any?) && |group.slots| == |group.inputs|
  {
    var n := |group.inputs|;
    var t := SlotsMade(s, g, group, n);
    if group.Any? then t
    else if n == 0 then Settle(t, g, Resolved(List([])))
    else t.(storage := t.storage[g := Storage(map[], n, n)])
  }

  lemma SlotGrouped(net: Net, g: Id, i: nat)
    requires Grouped(net) && (net.Def(g).Join? || net.Def(g).Any?) && i < |net.Def(g).slots| == |net.Def(g).inputs|
    requires net.Def(net.Def(g).slots[i]).Source?
    requires forall j :: 0 <= j < |net.Def(g).slots| && j != i ==> net.Def(g).slots[i] != net.Def(g).slots[j]
    requires forall h :: h != g && (net.Def(h).Join? || net.Def(h).Any?) ==> net.Def(g).slots[i] !in net.Def(h).slots
    ensures Grouped(Deriving(net, net.Def(g).slots[i], net.Def(g).inputs[i], Some(SlotHandler(net.Def(g), g, i)), None))
  {
    var d := net.Def(g).slots[i];
    var net1 := Deriving(net, d, net.Def(g).inputs[i], Some(SlotHandler(net.Def(g), g, i)), None);
    forall e | net1.Def(e).Derived? ensures HandlersOk(net1, e) {
      if e != d {
        assert HandlersOk(net, e);
      }
    }
    forall h ensures GroupOk(net1, h) {
      assert GroupOk(net, h);
    }
  }

  /** One round of the loop: the next slot waits for its input. */
  lemma SlotMade(s: State, g: Id, i: nat)
    requires Good(s, Idle) && Underway(s, g, i) && i < |s.net.Def(g).slots|
    ensures var t := Chained(s, s.net.Def(g).inputs[i], Some(SlotHandler(s.net.Def(g), g, i)), None,
      s.net.Def(g).slots[i]);
      Good(t, Idle) && Underway(t, g, i + 1) && t.net.Def(g) == s.net.Def(g)
  {
    hide Core, Groups;
    var group := s.net.Def(g);
    GroupsAt(s.net, s.ledger, s.board, s.storage, g);
    SlotGrouped(s.net, g, i);
    ChainedGood(s, group.inputs[i], Some(SlotHandler(group, g, i)), None, group.slots[i]);
    SlotUnderway(s, Chained(s, group.inputs[i], Some(SlotHandler(group, g, i)), None, group.slots[i]), g, i,
      group.slots[i]);
  }

  lemma SlotUnderway(s: State, t: State, g: Id, i: nat, d: Id)
    requires Underway(s, g, i) && i < |s.net.Def(g).slots| && d == s.net.Def(g).slots[i]
    requires t.net.Def(d).Derived? && t.ledger == s.ledger && t.board.stage == s.board.stage[d := Fresh]
    requires forall e :: e != d ==> t.net.Def(e) == s.net.Def(e)
    ensures Underway(t, g, i + 1)
  {
    var slots := s.net.Def(g).slots;
    assert s.net.Def(d).Source? && t.net.Def(g) == s.net.Def(g);
    forall k | 0 <= k < i + 1
      ensures t.net.Def(slots[k]).Derived? && slots[k] in t.board.stage && t.board.stage[slots[k]].Fresh?
    {
      assert k < i ==> slots[k] != d;
    }
    forall k | i + 1 <= k < |slots| ensures Unused(t, slots[k]) {
      assert slots[k] != d && Unused(s, slots[k]);
    }
    forall h, k | h != g && (t.net.Def(h).Join? || t.net.Def(h).Any?) && 0 <= k < |slots|
      ensures slots[k] !in t.net.Def(h).slots
    {
      assert h != d && s.net.Def(h) == t.net.Def(h);
    }
  }

  /** All slots are made: nothing is stored yet and everything is left. */
  lemma OpenGood(s: State, g: Id, n: nat)
    requires Good(s, Idle) && Underway(s, g, n) && s.net.Def(g).Join? && n == |s.net.Def(g).slots| > 0
    ensures Good(s.(storage := s.storage[g := Storage(map[], n, n)]), Idle)
  {
    hide Core;
    StorageCore(s, Idle, s.storage[g := Storage(map[], n, n)]);
    forall i: nat | i < n ensures !Passed(s.net, s.ledger, s.board, s.net.Def(g).slots[i]) {
      FreshNotPassed(s.net, s.ledger, s.board, s.net.Def(g).slots[i]);
    }
  }

  lemma EmptyJoinAllowed(net: Net, l: Ledger, g: Id)
    requires Justified(net, l) && g !in l.settled && net.Def(g).Join? && net.Def(g).inputs == []
    ensures Allowed(net, l, g, Resolved(List([])), l.clock)
  {
    hide Justified;
    UnsettledUnforced(net, l, g);
  }

  /** What `then` changes: the new promise, and who waits for the old one. */
  lemma ChainedIs(s: State, p: Id, f: Option<Handler>, r: Option<Handler>, d: Id)
    ensures var t := Chained(s, p, f, r, d);
      && t.net.defs == s.net.defs[d := Derived(p, f, r)]
      && t.ledger == s.ledger && t.storage == s.storage && t.calls == s.calls
      && t.board.handlers.Keys == s.board.handlers.Keys + {p}
      && (p in s.board.handlers ==> t.board.handlers[p] == s.board.handlers[p] + [Closure(d, f, r)])
      && (p !in s.board.handlers ==> t.board.handlers[p] == [Closure(d, f, r)])
      && forall q :: q in s.board.handlers && q != p ==> t.board.handlers[q] == s.board.handlers[q]
  {
  }

  /** The handler by which a group gathers what its input number `i` resolves to. */
  ghost predicate GathersAt(h: Option<Handler>, group: Def, g: Id, i: nat) {
    (group.Join? && h == Some(Slot(g, i))) || (group.Any? && h == Some(First(g, i)))
  }

  /** Slot number `i` of the group is made, and waits for its own input. */
  ghost predicate SlotWaits(s: State, g: Id, group: Def, i: nat)
    requires (group.Join? || group.Any?) && i < |group.inputs| == |group.slots|
  {
    && group.slots[i] in s.net.defs && s.net.defs[group.slots[i]].Derived?
    && s.net.defs[group.slots[i]].parent == group.inputs[i]
    && GathersAt(s.net.defs[group.slots[i]].onResolve, group, g, i) && s.net.defs[group.slots[i]].onReject == None
    && group.inputs[i] in s.board.handlers
    && Closure(group.slots[i], s.net.defs[group.slots[i]].onResolve, None) in s.board.handlers[group.inputs[i]]
  }

  lemma SlotWaitsStill(s: State, g: Id, group: Def, i: nat, p: Id, f: Option<Handler>, r: Option<Handler>, d: Id)
    requires (group.Join? || group.Any?) && i < |group.inputs| == |group.slots|
    requires SlotWaits(s, g, group, i) && d != group.slots[i]
    ensures SlotWaits(Chained(s, p, f, r, d), g, group, i)
  {
    ChainedIs(s, p, f, r, d);
  }

  lemma {:induction false} SlotsMadeIs(s: State, g: Id, group: Def, n: nat)
    requires (group.Join? || group.Any?) && n <= |group.inputs| && |group.slots| == |group.inputs|
    requires forall i, j :: 0 <= i < j < |group.slots| ==> group.slots[i] != group.slots[j]
    requires g !in group.slots
    ensures var t := SlotsMade(s, g, group, n);
      && t.ledger == s.ledger && t.storage == s.storage && g in t.net.defs && t.net.defs[g] == group
      && forall e :: e in s.net.defs && e != g && e !in group.slots ==>
           e in t.net.defs && t.net.defs[e] == s.net.defs[e]
    ensures forall i :: 0 <= i < n ==> SlotWaits(SlotsMade(s, g, group, n), g, group, i)
    decreases n
  {
    hide Chained, SlotWaits;
    if n > 0 {
      var t := SlotsMade(s, g, group, n - 1);
      SlotsMadeIs(s, g, group, n - 1);
      var f, d := Some(SlotHandler(group, g, n - 1)), group.slots[n - 1];
      ChainedIs(t, group.inputs[n - 1], f, None, d);
      var u := Chained(t, group.inputs[n - 1], f, None, d);
      forall i | 0 <= i < n - 1 ensures SlotWaits(u, g, group, i) {
        SlotWaitsStill(t, g, group, i, group.inputs[n - 1], f, None, d);
      }
      LastSlotWaits(t, g, group, n - 1);
    }
  }

  lemma LastSlotWaits(s: State, g: Id, group: Def, i: nat)
    requires (group.Join? || group.Any?) && i < |group.inputs| == |group.slots|
    ensures SlotWaits(Chained(s, group.inputs[i], Some(SlotHandler(group, g, i)), None, group.slots[i]), g, group, i)
  {
    ChainedIs(s, group.inputs[i], Some(SlotHandler(group, g, i)), None, group.slots[i]);
  }

  /** What join and any leave: the group, a slot waiting for each input, and for a join its storage,
      or without inputs its result. */
  lemma GroupMadeIs(s: State, g: Id, group: Def)
    requires Groupable(s, g, group)
    ensures var t := GroupMade(s, g, group);
      && g in t.net.defs && t.net.defs[g] == group
      && (forall e :: e in s.net.defs && e != g && e !in group.slots ==>
            e in t.net.defs && t.net.defs[e] == s.net.defs[e])
      && (group.Any? || group.inputs != [] ==> t.ledger == s.ledger)
      && (group.Any? ==> t.storage == s.storage)
      && (group.Join? && group.inputs != [] ==>
            t.storage == s.storage[g := Storage(map[], |group.inputs|, |group.inputs|)])
      && (group.Join? && group.inputs == [] ==> t.ledger.settled == s.ledger.settled[g := Resolved(List([]))])
    ensures forall i :: 0 <= i < |group.inputs| ==> SlotWaits(GroupMade(s, g, group), g, group, i)
  {
    hide SlotsMade;
    SlotsMadeIs(s, g, group, |group.inputs|);
    var t, u := SlotsMade(s, g, group, |group.inputs|), GroupMade(s, g, group);
    assert u.board == t.board && u.net == t.net;
    forall i | 0 <= i < |group.inputs| ensures SlotWaits(u, g, group, i) {
      assert SlotWaits(t, g, group, i);
    }
  }
}
