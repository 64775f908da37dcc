// What every step of the promise scheduler keeps.

module Scheduling {
  import opened Base
  import opened Promises

  /** The closures in the ___handlers arrays, and how far each closure has come. */
  datatype Board = Board(handlers: map<Id, seq<Closure>>, stage: map<Id, Stage>) {
    function Waiting(p: Id): seq<Closure> {
      if p in handlers then handlers[p] else []
    }
  }

  /** The pending_promise_%d members and pending_count of the event module, and the
      promises with an is_pending member. */
  datatype Stack = Stack(isPending: set<Id>, pending: map<int, Id>, count: int)

  datatype State = State(net: Net, ledger: Ledger, board: Board, stack: Stack, storage: map<Id, Storage>,
    calls: seq<Id>)

  /** Whether a promise is being dispatched, and the closures still to be called then. */
  datatype Turn = Idle | Busy(promise: Id, rest: seq<Closure>) {
    predicate At(p: Id) {
      Busy? && promise == p
    }
  }

  // ---- the steps -------------------------------------------------------------------

  /** di_promise_start_dispatch */
  function Schedule(k: Stack, p: Id): Stack {
    if p in k.isPending then k else Stack(k.isPending + {p}, k.pending[k.count := p], k.count + 1)
  }

  /** di_promise_add_handler */
  function Append(b: Board, p: Id, c: Closure): Board {
    b.(handlers := b.handlers[p := b.Waiting(p) + [c]])
  }

  function Enlist(s: State, p: Id, c: Closure): State {
    s.(board := Append(s.board, p, c), stack := if p in s.ledger.settled then Schedule(s.stack, p) else s.stack)
  }

  /** di_promise_resolve and di_promise_reject */
  function Settle(s: State, p: Id, x: Settlement): State {
    if p in s.ledger.settled then s
    else s.(ledger := Record(s.ledger, p, x), stack := Schedule(s.stack, p))
  }

  function Record(l: Ledger, p: Id, x: Settlement): Ledger {
    Ledger(l.settled[p := x], l.rank[p := l.clock], l.clock + 1)
  }

  // ---- the stack of pending promises -------------------------------------------------

  ghost predicate InStack(pending: map<int, Id>, p: Id) {
    exists i :: i in pending && pending[i] == p
  }

  ghost predicate Stacked(k: Stack, l: Ledger, turn: Turn) {
    && 0 <= k.count
    && (forall i :: i in k.pending <==> 0 <= i < k.count)
    && (forall i, j :: 0 <= i < j < k.count ==> k.pending[i] != k.pending[j])
    && (forall p :: p in k.isPending <==> InStack(k.pending, p) || turn.At(p))
    && (turn.Busy? ==> !InStack(k.pending, turn.promise))
    && k.isPending <= l.settled.Keys
  }

  // ---- the closures ----------------------------------------------------------------

  ghost predicate Unfinished(net: Net, b: Board, d: Id) {
    d in b.stage && net.Def(d).Derived? && !b.stage[d].Finished?
  }

  /** The promise whose settlement the closure of `d` waits for. */
  ghost function Home(net: Net, b: Board, d: Id): Id
    requires Unfinished(net, b, d)
  {
    if b.stage[d].Fresh? then net.Def(d).parent else b.stage[d].promise
  }

  ghost predicate Sits(net: Net, b: Board, c: Closure, p: Id) {
    && Unfinished(net, b, c.target) && Home(net, b, c.target) == p
    && (b.stage[c.target].Fresh? ==>
          c.onResolve == net.Def(c.target).onResolve && c.onReject == net.Def(c.target).onReject)
    && (b.stage[c.target].Following? ==> c.onResolve == None && c.onReject == None)
  }

  /** All closures waiting for `p`: those of the dispatch under way first. */
  ghost function Line(b: Board, turn: Turn, p: Id): seq<Closure> {
    if turn.At(p) then turn.rest + b.Waiting(p) else b.Waiting(p)
  }

  ghost predicate Listed(cs: seq<Closure>, d: Id) {
    exists k :: 0 <= k < |cs| && cs[k].target == d
  }

  ghost predicate Distinct(cs: seq<Closure>) {
    forall j, k :: 0 <= j < k < |cs| ==> cs[j].target != cs[k].target
  }

  /** Every unfinished closure waits in one place, once, and nothing else waits. */
  ghost predicate Placed(net: Net, b: Board, turn: Turn) {
    && (forall p, k :: 0 <= k < |Line(b, turn, p)| ==> Sits(net, b, Line(b, turn, p)[k], p))
    && (forall p :: Distinct(Line(b, turn, p)))
    && (forall d :: Unfinished(net, b, d) ==> Listed(Line(b, turn, Home(net, b, d)), d))
  }

  ghost function Answer(net: Net, l: Ledger, d: Id): Reaction
    requires net.Def(d).Derived? && net.Def(d).parent in l.settled
  {
    var x := l.settled[net.Def(d).parent];
    React(net.code, Chosen(net.Def(d), x), x)
  }

  ghost predicate StageOk(net: Net, l: Ledger, d: Id, stage: Stage)
    requires net.Def(d).Derived?
  {
    match stage
    case Fresh => true
    case Following(q) => net.Def(d).parent in l.settled && Answer(net, l, d) == Follows(q)
    case Finished =>
      net.Def(d).parent in l.settled &&
      (match Answer(net, l, d)
       case Settles(_) => d in l.settled
       case Follows(q) => q in l.settled && d in l.settled
       case Nothing => true)
  }

  ghost predicate Stages(net: Net, l: Ledger, b: Board) {
    && (forall d :: net.Def(d).Derived? <==> d in b.stage)
    && (forall d :: d in b.stage ==> net.Def(d).Derived? && StageOk(net, l, d, b.stage[d]))
  }

  /** The closure of a handler of `p` that returned `p` itself. */
  ghost predicate SelfFollower(net: Net, b: Board, c: Closure, p: Id) {
    && c.target in b.stage && b.stage[c.target] == Following(p)
    && net.Def(c.target).Derived? && net.Def(c.target).parent == p
  }

  /** `p` will not be scheduled for what is added to it now. */
  ghost predicate Deaf(l: Ledger, k: Stack, turn: Turn, p: Id) {
    p in l.settled && (p !in k.isPending || turn.At(p))
  }

  /** What waits for a settled promise has been scheduled, unless it began to wait while
      that promise was dispatched. */
  ghost predicate Awake(net: Net, l: Ledger, b: Board, k: Stack, turn: Turn) {
    forall p, i :: Deaf(l, k, turn, p) && 0 <= i < |b.Waiting(p)| ==> SelfFollower(net, b, b.Waiting(p)[i], p)
  }

  /** Every user handler is called at most once. */
  ghost predicate CalledOnce(b: Board, calls: seq<Id>) {
    && (forall d :: d in calls ==> d in b.stage && !b.stage[d].Fresh?)
    && forall j, k :: 0 <= j < k < |calls| ==> calls[j] != calls[k]
  }

  ghost predicate Core(s: State, turn: Turn) {
    && Justified(s.net, s.ledger) && Stacked(s.stack, s.ledger, turn) && Placed(s.net, s.board, turn)
    && Stages(s.net, s.ledger, s.board) && Awake(s.net, s.ledger, s.board, s.stack, turn)
    && CalledOnce(s.board, s.calls)
  }

  // ---- settling ----------------------------------------------------------------------

  /** What was settled stays as it is. */
  ghost predicate Keeps(l: Ledger, m: Ledger) {
    && (forall q :: q in l.settled ==> q in m.settled && m.settled[q] == l.settled[q])
    && (forall q :: q in l.rank ==> q in m.rank && m.rank[q] == l.rank[q])
    && l.clock <= m.clock
  }

  /** The two networks say the same of `p`. */
  ghost predicate Alike(n: Net, m: Net, p: Id) {
    && n.code == m.code && n.Def(p) == m.Def(p)
    && (p in n.forced <==> p in m.forced) && (p in n.forced ==> m.forced[p] == n.forced[p])
    && (p in n.raced ==> p in m.raced && m.raced[p] == n.raced[p])
  }

  lemma AllowedStays(n: Net, m: Net, l: Ledger, l1: Ledger, p: Id, z: Settlement, clock: nat)
    requires Allowed(n, l, p, z, clock) && Keeps(l, l1) && Alike(n, m, p)
    ensures Allowed(m, l1, p, z, clock)
  {
  }

  lemma RecordJustified(net: Net, l: Ledger, p: Id, x: Settlement)
    requires Justified(net, l) && p !in l.settled && Allowed(net, l, p, x, l.clock)
    ensures Justified(net, Record(l, p, x)) && Keeps(l, Record(l, p, x))
  {
    hide Allowed;
    var m := Record(l, p, x);
    forall q | q in m.settled ensures Allowed(net, m, q, m.settled[q], m.rank[q]) {
      AllowedStays(net, net, l, m, q, m.settled[q], m.rank[q]);
    }
  }

  lemma PushInStack(pending: map<int, Id>, n: int, p: Id, q: Id)
    requires n !in pending
    ensures InStack(pending[n := p], q) <==> InStack(pending, q) || q == p
  {
    var more := pending[n := p];
    assert more[n] == p;
    if InStack(pending, q) {
      var i :| i in pending && pending[i] == q;
      assert more[i] == q;
    }
    if InStack(more, q) && q != p {
      var i :| i in more && more[i] == q;
      assert pending[i] == q;
    }
  }

  lemma InStackAt(pending: map<int, Id>, i: int)
    requires i in pending
    ensures InStack(pending, pending[i])
  {
  }

  lemma ScheduleStacked(k: Stack, l: Ledger, turn: Turn, p: Id)
    requires Stacked(k, l, turn) && p in l.settled
    ensures Stacked(Schedule(k, p), l, turn)
  {
    hide InStack;
    if p !in k.isPending {
      forall q ensures InStack(k.pending[k.count := p], q) <==> InStack(k.pending, q) || q == p {
        PushInStack(k.pending, k.count, p, q);
      }
      forall i | i in k.pending ensures InStack(k.pending, k.pending[i]) {
        InStackAt(k.pending, i);
      }
    }
  }

  lemma StackedStays(k: Stack, l: Ledger, m: Ledger, turn: Turn)
    requires Stacked(k, l, turn) && Keeps(l, m)
    ensures Stacked(k, m, turn)
  {
    hide InStack;
  }

  lemma StagesStay(net: Net, l: Ledger, m: Ledger, b: Board)
    requires Stages(net, l, b) && Keeps(l, m)
    ensures Stages(net, m, b)
  {
    forall d | d in b.stage ensures StageOk(net, m, d, b.stage[d]) {
      assert StageOk(net, l, d, b.stage[d]);
    }
  }

  lemma AwakeStays(net: Net, l: Ledger, m: Ledger, b: Board, k: Stack, k1: Stack, turn: Turn)
    requires Awake(net, l, b, k, turn) && forall p :: Deaf(m, k1, turn, p) ==> Deaf(l, k, turn, p)
    ensures Awake(net, m, b, k1, turn)
  {
    hide Deaf, SelfFollower;
  }

  lemma SettleCore(s: State, turn: Turn, p: Id, x: Settlement)
    requires Core(s, turn) && (p !in s.ledger.settled ==> Allowed(s.net, s.ledger, p, x, s.ledger.clock))
    ensures Core(Settle(s, p, x), turn) && Keeps(s.ledger, Settle(s, p, x).ledger)
  {
    hide Justified, Stacked, Placed, Stages, Awake, Allowed, CalledOnce;
    if p !in s.ledger.settled {
      var l, k := Record(s.ledger, p, x), Schedule(s.stack, p);
      RecordJustified(s.net, s.ledger, p, x);
      StackedStays(s.stack, s.ledger, l, turn);
      ScheduleStacked(s.stack, l, turn, p);
      StagesStay(s.net, s.ledger, l, s.board);
      TurnSettled(s.stack, s.ledger, turn);
      AwakeStays(s.net, s.ledger, l, s.board, s.stack, k, turn);
    }
  }

  lemma TurnSettled(k: Stack, l: Ledger, turn: Turn)
    requires Stacked(k, l, turn)
    ensures turn.Busy? ==> turn.promise in k.isPending && turn.promise in l.settled
    ensures k.isPending <= l.settled.Keys
  {
    hide InStack;
  }

  // ---- moving a closure --------------------------------------------------------------

  /** Every closure is in its place, but for that of `d`, which is nowhere. */
  ghost predicate PlacedBut(net: Net, b: Board, turn: Turn, d: Id) {
    && (forall p, k :: 0 <= k < |Line(b, turn, p)| ==>
          Sits(net, b, Line(b, turn, p)[k], p) && Line(b, turn, p)[k].target != d)
    && (forall p :: Distinct(Line(b, turn, p)))
    && (forall e :: e != d && Unfinished(net, b, e) ==> Listed(Line(b, turn, Home(net, b, e)), e))
  }

  function Moved(b: Board, d: Id, stage: Stage): Board {
    b.(stage := b.stage[d := stage])
  }

  lemma SitsStays(net: Net, b: Board, b1: Board, c: Closure, p: Id)
    requires Sits(net, b, c, p) && c.target in b1.stage && b1.stage[c.target] == b.stage[c.target]
    ensures Sits(net, b1, c, p)
  {
  }

  lemma ListedLater(c: Closure, cs: seq<Closure>, e: Id)
    requires Listed([c] + cs, e) && c.target != e
    ensures Listed(cs, e)
  {
    var k :| 0 <= k < |[c] + cs| && ([c] + cs)[k].target == e;
    assert cs[k - 1].target == e;
  }

  lemma ListedMore(cs: seq<Closure>, c: Closure, e: Id)
    requires Listed(cs, e) || c.target == e
    ensures Listed(cs + [c], e)
  {
    if Listed(cs, e) {
      var k :| 0 <= k < |cs| && cs[k].target == e;
      assert (cs + [c])[k].target == e;
    } else {
      assert (cs + [c])[|cs|].target == e;
    }
  }

  lemma DistinctTail(c: Closure, cs: seq<Closure>)
    requires Distinct([c] + cs)
    ensures Distinct(cs) && forall k :: 0 <= k < |cs| ==> cs[k].target != c.target
  {
    assert ([c] + cs)[0] == c && forall k :: 0 <= k < |cs| ==> ([c] + cs)[k + 1] == cs[k];
  }

  /** The first closure of the dispatch leaves its line. */
  lemma TakeOut(net: Net, b: Board, p: Id, c: Closure, rest: seq<Closure>, stage: Stage)
    requires Placed(net, b, Busy(p, [c] + rest))
    ensures PlacedBut(net, Moved(b, c.target, stage), Busy(p, rest), c.target)
  {
    hide Sits, Distinct, Listed, Unfinished;
    var d, b1, was, now := c.target, Moved(b, c.target, stage), Busy(p, [c] + rest), Busy(p, rest);
    assert Line(b, was, p) == [c] + Line(b1, now, p);
    assert Sits(net, b, Line(b, was, p)[0], p);
    forall q, k | 0 <= k < |Line(b1, now, q)|
      ensures Sits(net, b1, Line(b1, now, q)[k], q) && Line(b1, now, q)[k].target != d
    {
      var e := Line(b1, now, q)[k];
      assert Sits(net, b, e, q) by {
        assert e == if q == p then Line(b, was, q)[k + 1] else Line(b, was, q)[k];
      }
      if q == p {
        DistinctTail(c, Line(b1, now, p));
      } else {
        SitsOnce(net, b, c, p, e, q);
      }
      SitsIn(net, b, e, q);
      SitsStays(net, b, b1, e, q);
    }
    forall q ensures Distinct(Line(b1, now, q)) {
      if q == p {
        DistinctTail(c, Line(b1, now, p));
      } else {
        assert Line(b1, now, q) == Line(b, was, q);
      }
    }
    forall e | e != d && Unfinished(net, b1, e) ensures Listed(Line(b1, now, Home(net, b1, e)), e) {
      UnfinishedStays(net, b1, b, e);
      if Home(net, b, e) == p {
        ListedLater(c, Line(b1, now, p), e);
      }
    }
  }

  lemma SitsIn(net: Net, b: Board, c: Closure, p: Id)
    requires Sits(net, b, c, p)
    ensures c.target in b.stage
  {
  }

  lemma SitsOnce(net: Net, b: Board, c: Closure, p: Id, e: Closure, q: Id)
    requires Sits(net, b, c, p) && Sits(net, b, e, q) && p != q
    ensures c.target != e.target
  {
  }

  lemma UnfinishedStays(net: Net, b: Board, b1: Board, e: Id)
    requires Unfinished(net, b, e) && (e in b.stage ==> e in b1.stage && b1.stage[e] == b.stage[e])
    ensures Unfinished(net, b1, e) && Home(net, b1, e) == Home(net, b, e)
  {
  }

  /** A closure that is nowhere joins the line of `q`. */
  lemma PutIn(net: Net, b: Board, turn: Turn, c: Closure, q: Id)
    requires PlacedBut(net, b, turn, c.target) && Sits(net, b, c, q)
    ensures Placed(net, Append(b, q, c), turn)
  {
    hide Sits, Distinct, Listed, Unfinished;
    var b1 := Append(b, q, c);
    assert Line(b1, turn, q) == Line(b, turn, q) + [c];
    assert forall p :: p != q ==> Line(b1, turn, p) == Line(b, turn, p);
    forall p, k | 0 <= k < |Line(b1, turn, p)| ensures Sits(net, b1, Line(b1, turn, p)[k], p) {
      var e := Line(b1, turn, p)[k];
      assert Sits(net, b, e, p) by {
        if k < |Line(b, turn, p)| {
          assert e == Line(b, turn, p)[k];
        }
      }
      SitsIn(net, b, e, p);
      SitsStays(net, b, b1, e, p);
    }
    forall p ensures Distinct(Line(b1, turn, p)) {
      assert Distinct(Line(b, turn, p));
      if p == q {
        DistinctMore(Line(b, turn, q), c);
      }
    }
    forall e | Unfinished(net, b1, e) ensures Listed(Line(b1, turn, Home(net, b1, e)), e) {
      UnfinishedStays(net, b1, b, e);
      var h := Home(net, b, e);
      if e == c.target {
        SitsHome(net, b, c, q);
      }
      if h == q {
        ListedMore(Line(b, turn, q), c, e);
      }
    }
  }

  lemma SitsHome(net: Net, b: Board, c: Closure, q: Id)
    requires Sits(net, b, c, q)
    ensures Unfinished(net, b, c.target) && Home(net, b, c.target) == q
  {
  }

  lemma DistinctMore(cs: seq<Closure>, c: Closure)
    requires Distinct(cs) && forall k :: 0 <= k < |cs| ==> cs[k].target != c.target
    ensures Distinct(cs + [c])
  {
  }

  // ---- calling a closure -------------------------------------------------------------

  lemma StagesMoved(net: Net, l: Ledger, b: Board, d: Id, stage: Stage)
    requires Stages(net, l, b) && d in b.stage && net.Def(d).Derived? && StageOk(net, l, d, stage)
    ensures Stages(net, l, Moved(b, d, stage))
  {
    hide StageOk;
  }

  lemma OnceMoved(b: Board, calls: seq<Id>, d: Id, stage: Stage, called: bool)
    requires CalledOnce(b, calls) && d in b.stage && !stage.Fresh? && (called ==> b.stage[d].Fresh?)
    ensures CalledOnce(Moved(b, d, stage), if called then calls + [d] else calls)
  {
  }

  lemma AwakeMoved(net: Net, l: Ledger, b: Board, k: Stack, p: Id, c: Closure, rest: seq<Closure>, stage: Stage)
    requires Awake(net, l, b, k, Busy(p, [c] + rest))
    requires PlacedBut(net, Moved(b, c.target, stage), Busy(p, rest), c.target)
    ensures Awake(net, l, Moved(b, c.target, stage), k, Busy(p, rest))
  {
    hide Sits, Distinct, Listed;
    var b1, turn := Moved(b, c.target, stage), Busy(p, rest);
    forall q, i | Deaf(l, k, turn, q) && 0 <= i < |b1.Waiting(q)| ensures SelfFollower(net, b1, b1.Waiting(q)[i], q) {
      assert Deaf(l, k, Busy(p, [c] + rest), q) && SelfFollower(net, b, b.Waiting(q)[i], q);
      var at := if q == p then |rest| + i else i;
      assert Line(b1, turn, q)[at] == b1.Waiting(q)[i];
    }
  }

  /** Everything but the place of the closure `c`, which has just been called. */
  ghost predicate CoreBut(s: State, turn: Turn, d: Id) {
    && Justified(s.net, s.ledger) && Stacked(s.stack, s.ledger, turn) && PlacedBut(s.net, s.board, turn, d)
    && Stages(s.net, s.ledger, s.board) && Awake(s.net, s.ledger, s.board, s.stack, turn)
    && CalledOnce(s.board, s.calls)
  }

  function Advance(s: State, d: Id, stage: Stage, called: bool): State {
    s.(board := Moved(s.board, d, stage), calls := if called then s.calls + [d] else s.calls)
  }

  lemma HeadSits(net: Net, b: Board, p: Id, c: Closure, rest: seq<Closure>)
    requires Placed(net, b, Busy(p, [c] + rest))
    ensures Sits(net, b, c, p) && c.target in b.stage && net.Def(c.target).Derived?
  {
    assert Line(b, Busy(p, [c] + rest), p)[0] == c;
  }

  lemma AdvanceCore(s: State, p: Id, c: Closure, rest: seq<Closure>, stage: Stage, called: bool)
    requires Core(s, Busy(p, [c] + rest)) && !stage.Fresh?
    requires s.net.Def(c.target).Derived? && StageOk(s.net, s.ledger, c.target, stage)
    requires called ==> c.target in s.board.stage && s.board.stage[c.target].Fresh?
    ensures CoreBut(Advance(s, c.target, stage, called), Busy(p, rest), c.target)
  {
    hide Justified, Placed, PlacedBut, Stages, Awake, CalledOnce, StageOk, Sits, InStack;
    HeadSits(s.net, s.board, p, c, rest);
    TakeOut(s.net, s.board, p, c, rest, stage);
    StagesMoved(s.net, s.ledger, s.board, c.target, stage);
    AwakeMoved(s.net, s.ledger, s.board, s.stack, p, c, rest, stage);
    OnceMoved(s.board, s.calls, c.target, stage, called);
  }

  lemma FinishedPlaced(net: Net, b: Board, turn: Turn, d: Id)
    requires PlacedBut(net, b, turn, d) && !Unfinished(net, b, d)
    ensures Placed(net, b, turn)
  {
    hide Sits, Distinct, Listed, Unfinished;
  }

  /** The closure has done its work and is gone. */
  lemma FinishCore(s: State, p: Id, c: Closure, rest: seq<Closure>, called: bool)
    requires Core(s, Busy(p, [c] + rest))
    requires s.net.Def(c.target).Derived? && StageOk(s.net, s.ledger, c.target, Finished)
    requires called ==> c.target in s.board.stage && s.board.stage[c.target].Fresh?
    ensures Core(Advance(s, c.target, Finished, called), Busy(p, rest))
  {
    hide Justified, Stacked, Placed, PlacedBut, Stages, Awake, CalledOnce, StageOk;
    AdvanceCore(s, p, c, rest, Finished, called);
    FinishedPlaced(s.net, Moved(s.board, c.target, Finished), Busy(p, rest), c.target);
  }

  lemma EnlistAwake(s: State, turn: Turn, q: Id, c: Closure)
    requires Awake(s.net, s.ledger, s.board, s.stack, turn)
    requires turn.At(q) ==> SelfFollower(s.net, s.board, c, q)
    ensures Awake(s.net, s.ledger, Append(s.board, q, c), Enlist(s, q, c).stack, turn)
  {
    hide SelfFollower;
    var t := Enlist(s, q, c);
    forall r, i | Deaf(s.ledger, t.stack, turn, r) && 0 <= i < |t.board.Waiting(r)|
      ensures SelfFollower(s.net, t.board, t.board.Waiting(r)[i], r)
    {
      assert Deaf(s.ledger, s.stack, turn, r);
      if i < |s.board.Waiting(r)| {
        SelfFollowerStays(s.net, s.board, t.board, s.board.Waiting(r)[i], r);
      } else {
        SelfFollowerStays(s.net, s.board, t.board, c, r);
      }
    }
  }

  lemma SelfFollowerStays(net: Net, b: Board, b1: Board, c: Closure, p: Id)
    requires SelfFollower(net, b, c, p) && b1.stage == b.stage
    ensures SelfFollower(net, b1, c, p)
  {
  }

  lemma StagesSame(net: Net, l: Ledger, b: Board, b1: Board)
    requires Stages(net, l, b) && b1.stage == b.stage
    ensures Stages(net, l, b1)
  {
    hide StageOk;
  }

  lemma OnceSame(b: Board, b1: Board, calls: seq<Id>)
    requires CalledOnce(b, calls) && b1.stage == b.stage
    ensures CalledOnce(b1, calls)
  {
  }

  /** A closure that is nowhere joins the line of `q`, and `q` is scheduled if settled. */
  lemma EnlistCore(s: State, turn: Turn, q: Id, c: Closure)
    requires CoreBut(s, turn, c.target) && Sits(s.net, s.board, c, q)
    requires turn.At(q) ==> SelfFollower(s.net, s.board, c, q)
    ensures Core(Enlist(s, q, c), turn)
  {
    hide Justified, Stacked, Placed, PlacedBut, Stages, Awake, CalledOnce, SelfFollower, Sits;
    PutIn(s.net, s.board, turn, c, q);
    EnlistAwake(s, turn, q, c);
    StagesSame(s.net, s.ledger, s.board, Append(s.board, q, c));
    OnceSame(s.board, Append(s.board, q, c), s.calls);
    if q in s.ledger.settled {
      ScheduleStacked(s.stack, s.ledger, turn, q);
    }
  }

  /** The handler returned the promise `q`: the closure now passes on what `q` settles to. */
  lemma FollowCore(s: State, p: Id, c: Closure, rest: seq<Closure>, q: Id)
    requires Core(s, Busy(p, [c] + rest))
    requires c.target in s.board.stage && s.board.stage[c.target].Fresh?
    requires s.net.Def(c.target).Derived? && StageOk(s.net, s.ledger, c.target, Following(q))
    ensures Core(Enlist(Advance(s, c.target, Following(q), true), q, Closure(c.target, None, None)), Busy(p, rest))
  {
    hide Core, Justified, Stacked, Placed, PlacedBut, Stages, Awake, CalledOnce, StageOk, Enlist;
    CorePlaced(s, Busy(p, [c] + rest));
    HeadSits(s.net, s.board, p, c, rest);
    AdvanceCore(s, p, c, rest, Following(q), true);
    EnlistCore(Advance(s, c.target, Following(q), true), Busy(p, rest), q, Closure(c.target, None, None));
  }

  lemma CorePlaced(s: State, turn: Turn)
    requires Core(s, turn)
    ensures Placed(s.net, s.board, turn)
  {
  }

  // ---- one dispatch --------------------------------------------------------------------

  /** The top of the stack leaves it, and its handlers array is taken from it. */
  function Popped(s: State): State
    requires s.stack.count - 1 in s.stack.pending
  {
    var top := s.stack.count - 1;
    s.(stack := s.stack.(pending := s.stack.pending - {top}, count := top),
       board := s.board.(handlers := s.board.handlers - {s.stack.pending[top]}))
  }

  function PoppedTurn(s: State): Turn
    requires s.stack.count - 1 in s.stack.pending
  {
    var p := s.stack.pending[s.stack.count - 1];
    Busy(p, s.board.Waiting(p))
  }

  lemma PopInStack(pending: map<int, Id>, n: int, q: Id)
    requires n in pending && forall i :: i in pending && i != n ==> pending[i] != pending[n]
    ensures InStack(pending - {n}, q) <==> InStack(pending, q) && q != pending[n]
  {
    var less := pending - {n};
    if InStack(less, q) {
      var i :| i in less && less[i] == q;
      assert pending[i] == q;
    }
    if InStack(pending, q) && q != pending[n] {
      var i :| i in pending && pending[i] == q;
      assert less[i] == q;
    }
  }

  lemma PopStacked(k: Stack, l: Ledger)
    requires Stacked(k, l, Idle) && k.count > 0
    ensures var n := k.count - 1;
      && n in k.pending && k.pending[n] in k.isPending
      && forall rest :: Stacked(k.(pending := k.pending - {n}, count := n), l, Busy(k.pending[n], rest))
  {
    hide InStack;
    var n := k.count - 1;
    forall q ensures InStack(k.pending - {n}, q) <==> InStack(k.pending, q) && q != k.pending[n] {
      PopInStack(k.pending, n, q);
    }
    InStackAt(k.pending, n);
  }

  lemma PopCore(s: State)
    requires Core(s, Idle) && s.stack.count > 0
    ensures s.stack.count - 1 in s.stack.pending && PoppedTurn(s).promise in s.ledger.settled
    ensures Core(Popped(s), PoppedTurn(s))
  {
    hide Justified, Stacked, Placed, Stages, Awake, CalledOnce;
    PopStacked(s.stack, s.ledger);
    TurnSettled(s.stack, s.ledger, Idle);
    var t, turn := Popped(s), PoppedTurn(s);
    PopPlaced(s.net, s.board, turn.promise);
    PopAwake(s.net, s.ledger, s.board, s.stack, t.stack, turn.promise, turn.rest);
    StagesSame(s.net, s.ledger, s.board, t.board);
    OnceSame(s.board, t.board, s.calls);
  }

  lemma PopPlaced(net: Net, b: Board, p: Id)
    requires Placed(net, b, Idle)
    ensures Placed(net, b.(handlers := b.handlers - {p}), Busy(p, b.Waiting(p)))
  {
    hide Sits, Distinct, Listed;
    var b1, turn := b.(handlers := b.handlers - {p}), Busy(p, b.Waiting(p));
    forall q ensures Line(b1, turn, q) == Line(b, Idle, q) {
    }
    LinesSame(net, b, Idle, b1, turn);
  }

  /** The same closures wait, however the dispatch under way divides them. */
  lemma LinesSame(net: Net, b: Board, turn: Turn, b1: Board, turn1: Turn)
    requires Placed(net, b, turn) && b1.stage == b.stage
    requires forall q :: Line(b1, turn1, q) == Line(b, turn, q)
    ensures Placed(net, b1, turn1)
  {
    hide Sits, Distinct, Listed, Line;
    forall q, k | 0 <= k < |Line(b1, turn1, q)| ensures Sits(net, b1, Line(b1, turn1, q)[k], q) {
      SitsIn(net, b, Line(b, turn, q)[k], q);
      SitsStays(net, b, b1, Line(b, turn, q)[k], q);
    }
    forall e | Unfinished(net, b1, e) ensures Listed(Line(b1, turn1, Home(net, b1, e)), e) {
      UnfinishedStays(net, b1, b, e);
    }
    assert forall q :: Distinct(Line(b, turn, q)) && Line(b1, turn1, q) == Line(b, turn, q);
  }

  lemma PopAwake(net: Net, l: Ledger, b: Board, k: Stack, k1: Stack, p: Id, rest: seq<Closure>)
    requires Awake(net, l, b, k, Idle) && k1.isPending == k.isPending
    ensures Awake(net, l, b.(handlers := b.handlers - {p}), k1, Busy(p, rest))
  {
    hide SelfFollower;
    var b1 := b.(handlers := b.handlers - {p});
    forall q, i | Deaf(l, k1, Busy(p, rest), q) && 0 <= i < |b1.Waiting(q)| ensures SelfFollower(net, b1,
      b1.Waiting(q)[i], q) {
      assert q != p && Deaf(l, k, Idle, q);
      SelfFollowerStays(net, b, b1, b.Waiting(q)[i], q);
    }
  }

  /** The dispatch is over and is_pending is taken away. */
  lemma EndCore(s: State, p: Id)
    requires Core(s, Busy(p, []))
    ensures Core(s.(stack := s.stack.(isPending := s.stack.isPending - {p})), Idle)
  {
    hide Justified, Placed, Stages, Awake, CalledOnce, InStack;
    EndStacked(s.stack, s.ledger, p);
    assert forall q :: Line(s.board, Busy(p, []), q) == Line(s.board, Idle, q);
    LinesSame(s.net, s.board, Busy(p, []), s.board, Idle);
    EndAwake(s.net, s.ledger, s.board, s.stack, p);
  }

  lemma EndStacked(k: Stack, l: Ledger, p: Id)
    requires Stacked(k, l, Busy(p, []))
    ensures Stacked(k.(isPending := k.isPending - {p}), l, Idle)
  {
    hide InStack;
  }

  lemma EndAwake(net: Net, l: Ledger, b: Board, k: Stack, p: Id)
    requires Awake(net, l, b, k, Busy(p, []))
    ensures Awake(net, l, b, k.(isPending := k.isPending - {p}), Idle)
  {
    hide SelfFollower;
    var k1 := k.(isPending := k.isPending - {p});
    forall q, i | Deaf(l, k1, Idle, q) && 0 <= i < |b.Waiting(q)| ensures SelfFollower(net, b, b.Waiting(q)[i], q) {
      assert Deaf(l, k, Busy(p, []), q);
    }
  }

  // ---- changes to the network ------------------------------------------------------------

  /** The derived promises are the same in both networks. */
  ghost predicate SameDerived(n: Net, m: Net) {
    n.code == m.code && forall d :: n.Def(d) == m.Def(d) || (!n.Def(d).Derived? && !m.Def(d).Derived?)
  }

  lemma NetCore(s: State, net: Net, turn: Turn)
    requires Core(s, turn) && SameDerived(s.net, net) && Justified(net, s.ledger)
    ensures Core(s.(net := net), turn)
  {
    hide Justified, Stacked, Placed, Stages, Awake, CalledOnce, SameDerived;
    NetPlaced(s.net, net, s.board, turn);
    NetStages(s.net, net, s.ledger, s.board);
    NetAwake(s.net, net, s.ledger, s.board, s.stack, turn);
  }

  lemma NetPlaced(n: Net, m: Net, b: Board, turn: Turn)
    requires Placed(n, b, turn) && SameDerived(n, m)
    ensures Placed(m, b, turn)
  {
    hide Distinct, Listed, Line;
    forall p, k | 0 <= k < |Line(b, turn, p)| ensures Sits(m, b, Line(b, turn, p)[k], p) {
      assert Sits(n, b, Line(b, turn, p)[k], p);
    }
    forall e | Unfinished(m, b, e) ensures Listed(Line(b, turn, Home(m, b, e)), e) {
      assert Unfinished(n, b, e) && Home(n, b, e) == Home(m, b, e);
    }
  }

  lemma NetStages(n: Net, m: Net, l: Ledger, b: Board)
    requires Stages(n, l, b) && SameDerived(n, m)
    ensures Stages(m, l, b)
  {
    forall d | d in b.stage ensures m.Def(d).Derived? && StageOk(m, l, d, b.stage[d]) {
      assert StageOk(n, l, d, b.stage[d]);
    }
  }

  lemma NetAwake(n: Net, m: Net, l: Ledger, b: Board, k: Stack, turn: Turn)
    requires Awake(n, l, b, k, turn) && SameDerived(n, m)
    ensures Awake(m, l, b, k, turn)
  {
    hide Deaf;
    forall q, i | Deaf(l, k, turn, q) && 0 <= i < |b.Waiting(q)| ensures SelfFollower(m, b, b.Waiting(q)[i], q) {
      assert SelfFollower(n, b, b.Waiting(q)[i], q);
    }
  }

  /** Nothing settled is told differently by the new network. */
  lemma NetJustified(n: Net, m: Net, l: Ledger)
    requires Justified(n, l) && m.forced.Keys <= l.settled.Keys
    requires forall p :: p in l.settled ==> Alike(n, m, p)
    ensures Justified(m, l)
  {
    hide Allowed, Alike;
    forall p | p in l.settled ensures Allowed(m, l, p, l.settled[p], l.rank[p]) {
      AllowedStays(n, m, l, l, p, l.settled[p], l.rank[p]);
    }
  }
}
