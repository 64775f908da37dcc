// Systems of difference constraints, solved by queue-based relaxation with a budget.

module Constraints {
  import opened Base

  /** Row `i` lists pairs `j, k`, each demanding `x[j] - x[i] <= k`. */
  type System = seq<seq<int>>

  datatype Outcome =
    | Solved(value: seq<int>)
    | Malformed                 // odd row, index out of range, negative self-loop
    | Unsatisfied               // "Failed to satisfy all constraints"
    | Overflow                  // a sum outside int64: undefined in the source

  const UINT: int := 0x1_0000_0000
  const INT64: int := 0x8000_0000_0000_0000

  function Pairs(row: seq<int>): nat {
    |row| / 2
  }

  function Target(row: seq<int>, p: nat): int
    requires p < Pairs(row)
  {
    row[2 * p]
  }

  function Bound(row: seq<int>, p: nat): int
    requires p < Pairs(row)
  {
    row[2 * p + 1]
  }

  predicate RowOk(c: System, i: nat)
    requires i < |c|
  {
    && |c[i]| % 2 == 0
    && forall p :: 0 <= p < Pairs(c[i]) ==> PairOk(c, i, p)
  }

  predicate PairOk(c: System, i: nat, p: nat)
    requires i < |c| && p < Pairs(c[i])
  {
    0 <= Target(c[i], p) < |c| && !(Target(c[i], p) == i && Bound(c[i], p) < 0)
  }

  predicate WellFormed(c: System) {
    forall i :: 0 <= i < |c| ==> RowOk(c, i)
  }

  /** The first `n` pairs of row `i` hold when `x[i]` is read from `x` and the rest from `y`. */
  ghost predicate Tight(c: System, x: seq<int>, y: seq<int>, i: nat, n: nat)
    requires WellFormed(c) && |x| == |y| == |c| && i < |c| && n <= Pairs(c[i])
  {
    forall p :: 0 <= p < n ==> RowOk(c, i) && PairOk(c, i, p) && y[Target(c[i], p)] <= x[i] + Bound(c[i], p)
  }

  ghost predicate Satisfies(c: System, x: seq<int>)
    requires WellFormed(c)
  {
    |x| == |c| && forall i :: 0 <= i < |c| ==> Tight(c, x, x, i, Pairs(c[i]))
  }

  /** A well-formed system, read off the numbers in the rows. */
  lemma WellFormedIs(c: System)
    ensures WellFormed(c) <==>
      && (forall i :: 0 <= i < |c| ==> |c[i]| % 2 == 0)
      && forall i, k :: 0 <= i < |c| && 0 <= k < |c[i]| && k % 2 == 0 ==>
           0 <= c[i][k] < |c| && (c[i][k] == i ==> c[i][k + 1] >= 0)
  {
    if WellFormed(c) {
      forall i, k | 0 <= i < |c| && 0 <= k < |c[i]| && k % 2 == 0
        ensures |c[i]| % 2 == 0 && 0 <= c[i][k] < |c| && (c[i][k] == i ==> c[i][k + 1] >= 0)
      {
        assert RowOk(c, i) && PairOk(c, i, k / 2);
      }
      forall i | 0 <= i < |c| ensures |c[i]| % 2 == 0 {
        assert RowOk(c, i);
      }
    } else {
      var i :| 0 <= i < |c| && !RowOk(c, i);
      if |c[i]| % 2 == 0 {
        var p :| 0 <= p < Pairs(c[i]) && !PairOk(c, i, p);
        var k := 2 * p;
        assert k % 2 == 0 && k < |c[i]| && Target(c[i], p) == c[i][k] && Bound(c[i], p) == c[i][k + 1];
      }
    }
  }

  /** So is a solution. */
  lemma SatisfiesIs(c: System, x: seq<int>)
    requires WellFormed(c)
    ensures Satisfies(c, x) <==>
      && |x| == |c|
      && forall i, k :: 0 <= i < |c| && 0 <= k < |c[i]| - 1 && k % 2 == 0 ==>
           0 <= c[i][k] < |x| && x[c[i][k]] - x[i] <= c[i][k + 1]
  {
    if Satisfies(c, x) {
      forall i, k | 0 <= i < |c| && 0 <= k < |c[i]| - 1 && k % 2 == 0
        ensures 0 <= c[i][k] < |x| && x[c[i][k]] - x[i] <= c[i][k + 1]
      {
        assert Tight(c, x, x, i, Pairs(c[i])) && RowOk(c, i) && PairOk(c, i, k / 2);
      }
    } else if |x| == |c| {
      var i :| 0 <= i < |c| && !Tight(c, x, x, i, Pairs(c[i]));
      assert RowOk(c, i) && forall p :: 0 <= p < Pairs(c[i]) ==> PairOk(c, i, p);
      var p :| 0 <= p < Pairs(c[i]) && !(RowOk(c, i) && PairOk(c, i, p) && x[Target(c[i], p)] <= x[i] + Bound(c[i], p));
      var k := 2 * p;
      assert PairOk(c, i, p) && k % 2 == 0 && k < |c[i]| - 1 && c[i][k] == Target(c[i], p);
    }
  }

  /** The largest of the solutions without a positive entry. */
  ghost predicate Greatest(c: System, x: seq<int>)
    requires WellFormed(c)
  {
    && Satisfies(c, x)
    && (forall j :: 0 <= j < |x| ==> x[j] <= 0)
    && forall y :: Satisfies(c, y) && (forall j :: 0 <= j < |y| ==> y[j] <= 0) ==>
         forall j :: 0 <= j < |c| ==> y[j] <= x[j]
  }

  // ---- cost of a pass ---------------------------------------------------------------

  /** Pairs in the rows that belong to `S`, among the first `n`. */
  ghost function Cost(c: System, S: set<int>, n: nat): nat
    requires n <= |c|
  {
    if n == 0 then 0 else Cost(c, S, n - 1) + if n - 1 in S then Pairs(c[n - 1]) else 0
  }

  function EdgesTo(c: System, n: nat): nat
    requires n <= |c|
  {
    if n == 0 then 0 else EdgesTo(c, n - 1) + Pairs(c[n - 1])
  }

  function EdgeCount(c: System): nat {
    EdgesTo(c, |c|)
  }

  /** Every row counts half its numbers. */
  lemma EdgesOne(c: System, row: seq<int>)
    ensures EdgeCount([]) == 0 && EdgeCount(c + [row]) == EdgeCount(c) + |row| / 2
  {
    EdgesPrefix(c, row, |c|);
  }

  lemma {:induction false} EdgesPrefix(c: System, row: seq<int>, n: nat)
    requires n <= |c|
    ensures EdgesTo(c + [row], n) == EdgesTo(c, n)
  {
    if n > 0 { EdgesPrefix(c, row, n - 1); }
  }

  /** The number of relaxations allowed, as an `unsigned int`. */
  function Budget(c: System): nat {
    ((|c| - 1) * EdgeCount(c)) % UINT
  }

  lemma BudgetWraps(c: System)
    ensures Budget(c) == ((|c| - 1) * EdgeCount(c)) % 0x1_0000_0000
  {
  }

  lemma {:induction false} CostEmpty(c: System, n: nat)
    requires n <= |c|
    ensures Cost(c, {}, n) == 0
  {
    if n > 0 { CostEmpty(c, n - 1); }
  }

  lemma {:induction false} CostAdd(c: System, S: set<int>, i: nat, n: nat)
    requires n <= |c| && i < |c| && i !in S
    ensures Cost(c, S + {i}, n) == Cost(c, S, n) + if i < n then Pairs(c[i]) else 0
  {
    if n > 0 { CostAdd(c, S, i, n - 1); }
  }

  lemma {:induction false} CostBound(c: System, S: set<int>, n: nat)
    requires n <= |c|
    ensures Cost(c, S, n) <= EdgesTo(c, n)
    ensures Cost(c, S, n) == EdgesTo(c, n) ==> forall i :: 0 <= i < n && i !in S ==> Pairs(c[i]) == 0
  {
    if n > 0 { CostBound(c, S, n - 1); }
  }

  lemma {:induction false} ModTimes(a: int, b: nat)
    ensures (a * (b % UINT)) % UINT == (a * b) % UINT
  {
    var q, s := b / UINT, b % UINT;
    assert a * b == a * s + (a * q) * UINT by {
      assert b == s + q * UINT;
      assert a * (s + q * UINT) == a * s + a * (q * UINT);
      assert a * (q * UINT) == (a * q) * UINT;
    }
    ModShift(a * s, a * q);
  }

  lemma ModShift(x: int, t: int)
    ensures (x + t * UINT) % UINT == x % UINT
  {
  }

  // ---- walks ------------------------------------------------------------------------

  /** A walk along constraints: it starts anywhere and follows pair `p` of the row it is at. */
  datatype Walk = At(node: nat) | Step(prior: Walk, p: nat)

  ghost predicate IsWalk(c: System, w: Walk)
    requires WellFormed(c)
    ensures IsWalk(c, w) ==> 0 <= End(c, w) < |c|
    decreases w, 1
  {
    match w
    case At(i) => i < |c|
    case Step(u, p) => IsWalk(c, u) && p < Pairs(c[End(c, u)]) && RowOk(c, End(c, u)) && PairOk(c, End(c, u), p)
  }

  ghost function End(c: System, w: Walk): int
    requires WellFormed(c)
    decreases w, 0
  {
    match w
    case At(i) => i
    case Step(u, p) =>
      if 0 <= End(c, u) < |c| && p < Pairs(c[End(c, u)]) then Target(c[End(c, u)], p) else -1
  }

  ghost function Length(c: System, w: Walk): int
    requires WellFormed(c) && IsWalk(c, w)
  {
    match w
    case At(i) => 0
    case Step(u, p) => Length(c, u) + Bound(c[End(c, u)], p)
  }

  ghost function Hops(w: Walk): nat {
    match w
    case At(_) => 0
    case Step(u, _) => Hops(u) + 1
  }

  ghost function Nodes(c: System, w: Walk): set<int>
    requires WellFormed(c)
  {
    match w
    case At(i) => {i}
    case Step(u, _) => Nodes(c, u) + {End(c, w)}
  }

  ghost predicate Simple(c: System, w: Walk)
    requires WellFormed(c)
  {
    match w
    case At(_) => true
    case Step(u, _) => Simple(c, u) && End(c, w) !in Nodes(c, u)
  }

  /** A solution grows along a walk by no more than the walk's length. */
  lemma {:induction false} SolutionBelow(c: System, x: seq<int>, w: Walk)
    requires WellFormed(c) && Satisfies(c, x) && IsWalk(c, w)
    requires forall j :: 0 <= j < |x| ==> x[j] <= 0
    ensures x[End(c, w)] <= Length(c, w)
  {
    match w
    case At(_) =>
    case Step(u, p) =>
      SolutionBelow(c, x, u);
      assert Tight(c, x, x, End(c, u), Pairs(c[End(c, u)]));
  }

  /** The part of `w` up to `v`, and what the solution says about the rest. */
  lemma {:induction false} Cut(c: System, x: seq<int>, w: Walk, v: int) returns (q: Walk)
    requires WellFormed(c) && Satisfies(c, x) && IsWalk(c, w) && Simple(c, w) && v in Nodes(c, w)
    ensures IsWalk(c, q) && Simple(c, q) && End(c, q) == v
    ensures x[End(c, w)] - x[v] <= Length(c, w) - Length(c, q)
  {
    if End(c, w) == v {
      q := w;
    } else {
      q := Cut(c, x, w.prior, v);
      var i := End(c, w.prior);
      assert Tight(c, x, x, i, Pairs(c[i]));
    }
  }

  /** In a satisfiable system, loops can be taken out of a walk without making it longer. */
  lemma {:induction false} Shorten(c: System, x: seq<int>, w: Walk) returns (q: Walk)
    requires WellFormed(c) && Satisfies(c, x) && IsWalk(c, w)
    ensures IsWalk(c, q) && Simple(c, q) && End(c, q) == End(c, w) && Length(c, q) <= Length(c, w)
  {
    match w
    case At(_) =>
      q := w;
    case Step(u, p) =>
      var s := Shorten(c, x, u);
      var i, j := End(c, u), End(c, w);
      assert Tight(c, x, x, i, Pairs(c[i]));
      if j in Nodes(c, s) {
        q := Cut(c, x, s, j);
      } else {
        q := Step(s, p);
      }
  }

  lemma {:induction false} SimpleHops(c: System, w: Walk)
    requires WellFormed(c) && IsWalk(c, w) && Simple(c, w)
    ensures |Nodes(c, w)| == Hops(w) + 1
    ensures forall v :: v in Nodes(c, w) ==> 0 <= v < |c|
  {
    if w.Step? { SimpleHops(c, w.prior); }
  }

  // ---- how far the relaxation has come ----------------------------------------------

  /** No walk of at most `h` hops undercuts `ret`. */
  ghost predicate Below(c: System, ret: seq<int>, h: nat)
    requires WellFormed(c) && |ret| == |c|
  {
    forall w :: IsWalk(c, w) && Hops(w) <= h ==> ret[End(c, w)] <= Length(c, w)
  }

  /** No walk undercuts all those of at most `h` hops to the same node. */
  ghost predicate Shallow(c: System, h: nat)
    requires WellFormed(c)
  {
    forall w :: IsWalk(c, w) ==> Undercut(c, w, h)
  }

  lemma ShallowAt(c: System, w: Walk, h: nat)
    requires WellFormed(c) && Shallow(c, h) && IsWalk(c, w)
    ensures Undercut(c, w, h)
  {
    hide Undercut;
  }

  ghost predicate Undercut(c: System, w: Walk, h: nat)
    requires WellFormed(c) && IsWalk(c, w)
  {
    exists q :: IsWalk(c, q) && Hops(q) <= h && End(c, q) == End(c, w) && Length(c, q) <= Length(c, w)
  }

  /** A satisfiable system of `n` variables is settled by walks of at most `n - 1` hops. */
  lemma SatisfiableShallow(c: System, x: seq<int>)
    requires WellFormed(c) && Satisfies(c, x) && c != []
    ensures Shallow(c, |c| - 1)
  {
    forall w | IsWalk(c, w) ensures Undercut(c, w, |c| - 1) {
      var q := Shorten(c, x, w);
      SimpleHops(c, q);
      SubsetSize(Nodes(c, q), Upto(|c|));
    }
  }

  /** Every value is the length of the walk `via` to its node. */
  ghost predicate Realised(c: System, ret: seq<int>, via: seq<Walk>, hops: nat)
    requires WellFormed(c)
  {
    && |ret| == |via| == |c|
    && forall j :: 0 <= j < |c| ==>
         IsWalk(c, via[j]) && End(c, via[j]) == j && Length(c, via[j]) == ret[j] && Hops(via[j]) <= hops
  }

  /** Values that are lengths of walks, and that no walk undercuts, satisfy everything. */
  lemma Complete(c: System, ret: seq<int>, via: seq<Walk>, hops: nat, h: nat)
    requires WellFormed(c) && Realised(c, ret, via, hops) && Below(c, ret, h) && Shallow(c, h)
    ensures Satisfies(c, ret)
  {
    forall i | 0 <= i < |c| ensures Tight(c, ret, ret, i, Pairs(c[i])) {
      forall p | 0 <= p < Pairs(c[i])
        ensures RowOk(c, i) && PairOk(c, i, p) && ret[Target(c[i], p)] <= ret[i] + Bound(c[i], p)
      {
        NotUndercut(c, ret, Step(via[i], p), h);
      }
    }
  }

  lemma NotUndercut(c: System, ret: seq<int>, w: Walk, h: nat)
    requires WellFormed(c) && |ret| == |c| && Below(c, ret, h) && Shallow(c, h) && IsWalk(c, w)
    ensures ret[End(c, w)] <= Length(c, w)
  {
    ShallowAt(c, w, h);
    var q :| IsWalk(c, q) && Hops(q) <= h && End(c, q) == End(c, w) && Length(c, q) <= Length(c, w);
  }

  lemma {:induction false} SolvedShallow(c: System, ret: seq<int>, via: seq<Walk>, hops: nat)
    requires WellFormed(c) && Realised(c, ret, via, hops) && Satisfies(c, ret)
    requires forall j :: 0 <= j < |ret| ==> ret[j] <= 0
    ensures Shallow(c, hops)
  {
    forall w | IsWalk(c, w) ensures Undercut(c, w, hops) {
      SolutionBelow(c, ret, w);
      var q := via[End(c, w)];
      assert IsWalk(c, q) && Hops(q) <= hops && End(c, q) == End(c, w);
    }
  }

  lemma RealisedGreatest(c: System, ret: seq<int>, via: seq<Walk>, hops: nat)
    requires WellFormed(c) && Realised(c, ret, via, hops) && Satisfies(c, ret)
    requires forall j :: 0 <= j < |ret| ==> ret[j] <= 0
    ensures Greatest(c, ret)
  {
    forall y, j | Satisfies(c, y) && (forall k :: 0 <= k < |y| ==> y[k] <= 0) && 0 <= j < |c| ensures y[j] <= ret[j] {
      SolutionBelow(c, y, via[j]);
    }
  }

  /** Every row satisfied against the values of one pass ago: one more hop is covered. */
  lemma Deepen(c: System, base: seq<int>, ret: seq<int>, h: nat)
    requires WellFormed(c) && |base| == |ret| == |c| && Below(c, base, h)
    requires forall i :: 0 <= i < |c| ==> ret[i] <= base[i] && Tight(c, base, ret, i, Pairs(c[i]))
    ensures Below(c, ret, h + 1)
  {
    forall w | IsWalk(c, w) && Hops(w) <= h + 1 ensures ret[End(c, w)] <= Length(c, w) {
      match w
      case At(i) => assert Hops(w) <= h;
      case Step(u, p) =>
        assert IsWalk(c, u) && Hops(u) <= h;
        assert Tight(c, base, ret, End(c, u), Pairs(c[End(c, u)]));
    }
  }

  // ---- the state of the relaxation ----------------------------------------------------

  /** A pass over the queue: `cur` is what is left of it at the front of the queue, `done`
      has been processed, and `base` are the values when it began, after `hops` passes. */
  datatype Pass = Pass(base: seq<int>, hops: nat, cur: seq<int>, finished: set<int>)

  ghost predicate Tracks(c: System, queue: seq<int>, inq: seq<bool>) {
    && |inq| == |c|
    && (forall a :: 0 <= a < |queue| ==> 0 <= queue[a] < |c|)
    && (forall a, b :: 0 <= a < b < |queue| ==> queue[a] != queue[b])
    && (forall i :: 0 <= i < |c| ==> (inq[i] <==> i in queue))
  }

  /** Every row outside `waiting` is satisfied; `busy` is being processed. */
  ghost predicate Quiet(c: System, x: seq<int>, ret: seq<int>, waiting: seq<int>, busy: int)
    requires WellFormed(c) && |x| == |ret| == |c|
  {
    forall i :: 0 <= i < |c| && i !in waiting && i != busy ==> Tight(c, x, ret, i, Pairs(c[i]))
  }

  ghost predicate AtMost(x: seq<int>, y: seq<int>) {
    |x| == |y| && forall i :: 0 <= i < |x| ==> x[i] <= y[i]
  }

  ghost predicate InPass(c: System, ret: seq<int>, queue: seq<int>, pass: Pass, busy: int)
    requires WellFormed(c) && |ret| == |c|
  {
    && AtMost(ret, pass.base) && Below(c, pass.base, pass.hops)
    && pass.cur <= queue && Quiet(c, pass.base, ret, pass.cur, busy)
    && (forall i :: i in pass.finished ==> 0 <= i < |c| && i !in pass.cur)
  }

  ghost predicate Ready(c: System, ret: seq<int>, via: seq<Walk>, queue: seq<int>, inq: seq<bool>,
                        pass: Pass, used: nat, busy: int)
    requires WellFormed(c)
  {
    && Realised(c, ret, via, used)
    && AtMost(ret, Zeros(c))
    && Tracks(c, queue, inq)
    && Quiet(c, ret, ret, queue, busy)
    && InPass(c, ret, queue, pass, busy)
    && busy !in queue && busy !in pass.finished
  }

  ghost function Zeros(c: System): seq<int> {
    seq(|c|, _ => 0)
  }

  function Indices(n: nat): seq<int> {
    seq(n, i => i)
  }

  lemma TightStays(c: System, x: seq<int>, y: seq<int>, x1: seq<int>, y1: seq<int>, i: nat, n: nat)
    requires WellFormed(c) && |x| == |x1| == |c| && i < |c| && n <= Pairs(c[i]) && |y| == |c|
    requires Tight(c, x, y, i, n) && x[i] <= x1[i] && AtMost(y1, y)
    ensures Tight(c, x1, y1, i, n)
  {
  }

  lemma Begin(c: System)
    requires WellFormed(c)
    ensures Ready(c, Zeros(c), seq(|c|, i requires 0 <= i < |c| => At(i)), Indices(|c|), seq(|c|, _ => true),
                  Pass(Zeros(c), 0, Indices(|c|), {}), 0, -1)
  {
    var q := Indices(|c|);
    forall i | 0 <= i < |c| ensures i in q {
      assert q[i] == i;
    }
    forall w | IsWalk(c, w) && Hops(w) <= 0 ensures Zeros(c)[End(c, w)] <= Length(c, w) {
      assert w.At?;
    }
  }

  /** The pass is over: what is queued by now makes up the next one. */
  lemma NextPass(c: System, ret: seq<int>, via: seq<Walk>, queue: seq<int>, inq: seq<bool>, pass: Pass, used: nat)
    requires WellFormed(c) && Ready(c, ret, via, queue, inq, pass, used, -1) && pass.cur == []
    ensures Ready(c, ret, via, queue, inq, Pass(ret, pass.hops + 1, queue, {}), used, -1)
  {
    forall i | 0 <= i < |c| ensures ret[i] <= pass.base[i] && Tight(c, pass.base, ret, i, Pairs(c[i])) {
      assert i !in pass.cur;
    }
    Deepen(c, pass.base, ret, pass.hops);
  }

  lemma Pop(c: System, ret: seq<int>, via: seq<Walk>, queue: seq<int>, inq: seq<bool>, pass: Pass, used: nat)
    requires WellFormed(c) && Ready(c, ret, via, queue, inq, pass, used, -1) && pass.cur != []
    ensures queue != [] && 0 <= queue[0] < |c| == |inq| && queue[0] !in pass.finished
    ensures Ready(c, ret, via, queue[1..], inq[queue[0] := false], pass.(cur := pass.cur[1..]), used, queue[0])
    ensures |ret| == |via| == |c| && Tight(c, ret, ret, queue[0], 0)
  {
    hide Below;
    var i, rest := queue[0], queue[1..];
    assert queue == [i] + rest && pass.cur == [i] + pass.cur[1..];
    forall m | 0 <= m < |c| ensures inq[i := false][m] <==> m in rest {
    }
    assert pass.cur[1..] <= rest;
  }

  /** Pair `p` of row `i` does not hold and its target is lowered. */
  lemma Lower(c: System, ret: seq<int>, via: seq<Walk>, queue: seq<int>, inq: seq<bool>, pass: Pass, used: nat,
              i: int, p: nat)
    requires WellFormed(c) && Ready(c, ret, via, queue, inq, pass, used, i)
    requires 0 <= i < |c| && p < Pairs(c[i]) && PairOk(c, i, p) && Tight(c, ret, ret, i, p)
    requires ret[Target(c[i], p)] > ret[i] + Bound(c[i], p)
    ensures var j := Target(c[i], p);
      var ret1 := ret[j := ret[i] + Bound(c[i], p)];
      && Ready(c, ret1, via[j := Step(via[i], p)], if inq[j] then queue else queue + [j], inq[j := true], pass,
        used + 1, i)
      && Tight(c, ret1, ret1, i, p + 1)
  {
    hide Realised, Quiet, InPass, Tracks, Tight, Below;
    var j := Target(c[i], p);
    LowerTracks(c, queue, inq, j);
    var ret1, queue1 := ret[j := ret[i] + Bound(c[i], p)], if inq[j] then queue else queue + [j];
    LowerLess(c, ret, i, j, p);
    LowerRealised(c, ret, via, used, i, p);
    LowerQuiet(c, ret, ret1, queue, queue1, i, j);
    LowerPass(c, ret, ret1, queue, queue1, pass, i);
    LowerTight(c, ret, ret1, i, p);
  }

  lemma LowerLess(c: System, ret: seq<int>, i: nat, j: int, p: nat)
    requires WellFormed(c) && AtMost(ret, Zeros(c)) && i < |c| && p < Pairs(c[i]) && PairOk(c, i, p)
    requires j == Target(c[i], p) && ret[j] > ret[i] + Bound(c[i], p)
    ensures var ret1 := ret[j := ret[i] + Bound(c[i], p)];
      AtMost(ret1, ret) && AtMost(ret1, Zeros(c)) && ret1[i] == ret[i]
  {
  }

  lemma LowerTight(c: System, ret: seq<int>, ret1: seq<int>, i: nat, p: nat)
    requires WellFormed(c) && |ret| == |c| && i < |c| && p < Pairs(c[i]) && PairOk(c, i, p) && Tight(c, ret, ret, i, p)
    requires AtMost(ret1, ret) && ret1[i] == ret[i] && ret1[Target(c[i], p)] == ret[i] + Bound(c[i], p)
    ensures Tight(c, ret1, ret1, i, p + 1)
  {
    TightStays(c, ret, ret, ret1, ret1, i, p);
    assert RowOk(c, i);
  }

  lemma LowerRealised(c: System, ret: seq<int>, via: seq<Walk>, used: nat, i: int, p: nat)
    requires WellFormed(c) && Realised(c, ret, via, used) && 0 <= i < |c| && p < Pairs(c[i]) && PairOk(c, i, p)
    ensures var j := Target(c[i], p);
      Realised(c, ret[j := ret[i] + Bound(c[i], p)], via[j := Step(via[i], p)], used + 1)
  {
    assert RowOk(c, i);
    assert IsWalk(c, Step(via[i], p));
  }

  lemma LowerTracks(c: System, queue: seq<int>, inq: seq<bool>, j: int)
    requires Tracks(c, queue, inq) && 0 <= j < |c|
    ensures |inq| == |c| && Tracks(c, if inq[j] then queue else queue + [j], inq[j := true])
    ensures j in if inq[j] then queue else queue + [j]
  {
  }

  lemma LowerQuiet(c: System, ret: seq<int>, ret1: seq<int>, queue: seq<int>, queue1: seq<int>, i: int, j: int)
    requires WellFormed(c) && |ret| == |c| && Quiet(c, ret, ret, queue, i) && AtMost(ret1, ret)
    requires forall m :: 0 <= m < |c| && m != j ==> ret1[m] == ret[m]
    requires j in queue1 && forall m :: m in queue ==> m in queue1
    ensures Quiet(c, ret1, ret1, queue1, i)
  {
    forall m | 0 <= m < |c| && m !in queue1 && m != i ensures Tight(c, ret1, ret1, m, Pairs(c[m])) {
      TightStays(c, ret, ret, ret1, ret1, m, Pairs(c[m]));
    }
  }

  lemma LowerPass(c: System, ret: seq<int>, ret1: seq<int>, queue: seq<int>, queue1: seq<int>, pass: Pass, i: int)
    requires WellFormed(c) && |ret| == |c| && InPass(c, ret, queue, pass, i) && AtMost(ret1, ret) && queue <= queue1
    ensures InPass(c, ret1, queue1, pass, i)
  {
    forall m | 0 <= m < |c| && m !in pass.cur && m != i ensures Tight(c, pass.base, ret1, m, Pairs(c[m])) {
      TightStays(c, pass.base, ret, pass.base, ret1, m, Pairs(c[m]));
    }
  }

  lemma EndRow(c: System, ret: seq<int>, via: seq<Walk>, queue: seq<int>, inq: seq<bool>, pass: Pass, used: nat, i: int)
    requires WellFormed(c) && Ready(c, ret, via, queue, inq, pass, used, i)
    requires 0 <= i < |c| && Tight(c, ret, ret, i, Pairs(c[i]))
    ensures Ready(c, ret, via, queue, inq, pass.(finished := pass.finished + {i}), used, -1)
  {
    TightStays(c, ret, ret, pass.base, ret, i, Pairs(c[i]));
    assert Quiet(c, pass.base, ret, pass.cur, -1);
    assert i !in pass.cur;
  }

  /** Out of budget between two rows, `q` passes' worth of it: `q` hops are covered. */
  lemma Exhausted(c: System, ret: seq<int>, via: seq<Walk>, queue: seq<int>, inq: seq<bool>, pass: Pass, used: nat,
      q: nat)
    requires WellFormed(c) && Ready(c, ret, via, queue, inq, pass, used, -1)
    requires q * EdgeCount(c) <= used <= pass.hops * EdgeCount(c) + Cost(c, pass.finished, |c|)
    ensures Below(c, ret, q)
  {
    var E := EdgeCount(c);
    CostBound(c, pass.finished, |c|);
    if q <= pass.hops {
      Reached(c, ret, pass.base, pass.hops, q);
    } else {
      FullPass(q, pass.hops, E, Cost(c, pass.finished, |c|));
      forall i | 0 <= i < |c| ensures ret[i] <= pass.base[i] && Tight(c, pass.base, ret, i, Pairs(c[i])) {
        if i in pass.finished {
          assert i !in pass.cur;
        }
      }
      Deepen(c, pass.base, ret, pass.hops);
      if E == 0 {
        NoEdges(c, ret, pass.hops + 1, q);
      }
    }
  }

  lemma Reached(c: System, ret: seq<int>, base: seq<int>, h: nat, q: nat)
    requires WellFormed(c) && |base| == |c| && Below(c, base, h) && AtMost(ret, base) && q <= h
    ensures Below(c, ret, q)
  {
  }

  lemma FullPass(q: nat, h: nat, E: nat, cost: nat)
    requires h < q && cost <= E && q * E <= h * E + cost
    ensures cost == E && (E == 0 || q == h + 1)
  {
    var d := q - h;
    assert q * E == h * E + d * E;
    if d >= 2 {
      Times(d - 2, E);
      assert d * E == (d - 2) * E + 2 * E;
    }
  }

  lemma Times(a: nat, b: nat)
    ensures a * b >= 0
  {
  }

  lemma NoEdges(c: System, ret: seq<int>, h: nat, q: nat)
    requires WellFormed(c) && |ret| == |c| && Below(c, ret, h) && EdgeCount(c) == 0
    ensures Below(c, ret, q)
  {
    CostBound(c, {}, |c|);
    assert forall w :: IsWalk(c, w) ==> w.At?;
  }

  // ---- the size of the sums -------------------------------------------------------------

  function Abs(k: int): nat {
    if k < 0 then -k else k
  }

  /** A walk that the budget pays for, with one hop more, has a length that no int64 holds. */
  ghost predicate Leaves(c: System)
    requires WellFormed(c)
  {
    exists w :: IsWalk(c, w) && Hops(w) <= Budget(c) + 1 && TooLong(c, w)
  }

  ghost predicate TooLong(c: System, w: Walk)
    requires WellFormed(c) && IsWalk(c, w)
  {
    Length(c, w) < -0x8000_0000_0000_0000 || Length(c, w) >= 0x8000_0000_0000_0000
  }

  predicate Fits(k: int) {
    -INT64 <= k < INT64
  }

  lemma {:induction false} LengthBound(c: System, w: Walk, K: nat)
    requires WellFormed(c) && IsWalk(c, w)
    requires forall i, p :: 0 <= i < |c| && 0 <= p < Pairs(c[i]) ==> Abs(Bound(c[i], p)) <= K
    ensures Abs(Length(c, w)) <= Hops(w) * K
  {
    match w
    case At(_) =>
    case Step(u, p) =>
      LengthBound(c, u, K);
      assert Abs(Bound(c[End(c, u)], p)) <= K;
      OneMore(Hops(u), K);
  }

  lemma OneMore(h: nat, K: nat)
    ensures (h + 1) * K == h * K + K
  {
  }

  lemma Scaled(h: nat, m: nat, K: nat)
    requires h <= m
    ensures h * K <= m * K
  {
  }

  /** Sums outside int64 need a bound so large that int64 has no room for the budget's hops. */
  lemma LeavesWide(c: System, most: int)
    requires WellFormed(c) && Leaves(c) && most >= 0
    requires forall i, k :: 0 <= i < |c| && 0 <= k < |c[i]| && k % 2 == 1 ==> -most <= c[i][k] <= most
    ensures (Budget(c) + 1) * most >= 0x8000_0000_0000_0000
  {
    hide Budget;
    var w :| IsWalk(c, w) && Hops(w) <= Budget(c) + 1 && TooLong(c, w);
    forall i, p | 0 <= i < |c| && 0 <= p < Pairs(c[i]) ensures Abs(Bound(c[i], p)) <= most {
      var k := 2 * p + 1;
      assert k % 2 == 1 && Bound(c[i], p) == c[i][k];
    }
    LengthBound(c, w, most);
    Scaled(Hops(w), Budget(c) + 1, most);
  }

  // ---- the solver -----------------------------------------------------------------------

  /** Adding up one row, wrapped around. */
  lemma EdgesNext(c: System, i: nat, nedges: nat)
    requires i < |c| && nedges == EdgesTo(c, i) % UINT
    ensures (nedges + |c[i]| / 2) % UINT == EdgesTo(c, i + 1) % UINT
  {
    var before, row := EdgesTo(c, i), |c[i]| / 2;
    ModShift(nedges + row, before / UINT);
    assert before == nedges + (before / UINT) * UINT;
  }

  /** The inner loop of the first part: the pairs of one row. */
  method ReadRow(c: System, i: nat) returns (ok: bool)
    requires i < |c| && |c[i]| % 2 == 0
    ensures ok <==> RowOk(c, i)
  {
    var at := 0;
    while at < |c[i]|
      invariant at % 2 == 0 && 0 <= at <= |c[i]|
      invariant forall p :: 0 <= p < at / 2 ==> PairOk(c, i, p)
    {
      assert Target(c[i], at / 2) == c[i][at] && Bound(c[i], at / 2) == c[i][at + 1];
      if c[i][at] >= |c| || c[i][at] < 0 {
        assert !PairOk(c, i, at / 2);
        return false;
      }
      if c[i][at] == i && c[i][at + 1] < 0 {
        assert !PairOk(c, i, at / 2);
        return false;
      }
      at := at + 2;
    }
    return true;
  }

  /** Reads the system: every node is queued and the edges are counted in an `unsigned int`. */
  method Read(c: System) returns (ok: bool, nedges: nat, queue: seq<int>)
    ensures ok <==> WellFormed(c)
    ensures ok ==> nedges == EdgeCount(c) % UINT && queue == Indices(|c|)
  {
    hide EdgesTo, PairOk;
    nedges, queue := 0, [];
    NothingCounted(c);
    for i := 0 to |c|
      invariant nedges == EdgesTo(c, i) % UINT
      invariant |queue| == i && forall a :: 0 <= a < i ==> queue[a] == a
      invariant forall m :: 0 <= m < i ==> RowOk(c, m)
    {
      queue := queue + [i];
      if |c[i]| % 2 != 0 {
        assert !RowOk(c, i);
        return false, nedges, queue;
      }
      EdgesNext(c, i, nedges);
      nedges := (nedges + |c[i]| / 2) % UINT;
      var fine := ReadRow(c, i);
      if !fine {
        return false, nedges, queue;
      }
    }
    return true, nedges, queue;
  }

  lemma NothingCounted(c: System)
    ensures EdgesTo(c, 0) == 0
  {
  }

  lemma Unpack(c: System, ret: seq<int>, via: seq<Walk>, queue: seq<int>, inq: seq<bool>, pass: Pass, used: nat,
      busy: int)
    requires WellFormed(c) && Ready(c, ret, via, queue, inq, pass, used, busy)
    ensures |ret| == |via| == |inq| == |pass.base| == |c| && Realised(c, ret, via, used) && AtMost(ret, Zeros(c))
    ensures Quiet(c, ret, ret, queue, busy) && AtMost(ret, pass.base) && Below(c, pass.base, pass.hops)
  {
  }

  /** The pair at hand is spent without effect. */
  lemma Hold(c: System, ret: seq<int>, via: seq<Walk>, queue: seq<int>, inq: seq<bool>, pass: Pass, used: nat,
             i: int, p: nat)
    requires WellFormed(c) && Ready(c, ret, via, queue, inq, pass, used, i)
    requires 0 <= i < |c| && p < Pairs(c[i]) && PairOk(c, i, p) && Tight(c, ret, ret, i, p)
    requires ret[Target(c[i], p)] <= ret[i] + Bound(c[i], p)
    ensures Ready(c, ret, via, queue, inq, pass, used + 1, i) && Tight(c, ret, ret, i, p + 1)
  {
    assert RowOk(c, i);
  }

  lemma ReadyMore(c: System, ret: seq<int>, via: seq<Walk>, queue: seq<int>, inq: seq<bool>, pass: Pass, used: nat,
      i: int)
    requires WellFormed(c) && Ready(c, ret, via, queue, inq, pass, used, i)
    ensures Ready(c, ret, via, queue, inq, pass, used + 1, i)
  {
  }

  lemma HopFits(c: System, ret: seq<int>, via: seq<Walk>, used: nat, i: int, p: nat)
    requires WellFormed(c) && Realised(c, ret, via, used) && 0 <= i < |c| && p < Pairs(c[i])
    requires used <= Budget(c)
    ensures Fits(ret[i] + Bound(c[i], p)) || Leaves(c)
  {
    hide Budget;
    assert RowOk(c, i) && PairOk(c, i, p);
    var w := Step(via[i], p);
    assert IsWalk(c, w) && Hops(w) <= Budget(c) + 1 && Length(c, w) == ret[i] + Bound(c[i], p);
    assert Fits(Length(c, w)) || TooLong(c, w);
  }

  /** All values found so far are in int64. */
  ghost predicate Held(ret: seq<int>) {
    forall j :: 0 <= j < |ret| ==> -0x8000_0000_0000_0000 <= ret[j] < 0x8000_0000_0000_0000
  }

  /** What has been spent: `hops` passes at most, and the rows `S` of this one. */
  ghost predicate Spent(c: System, hops: nat, S: set<int>, used: int) {
    used <= hops * EdgeCount(c) + Cost(c, S, |c|)
  }

  /** Whatever number of whole passes the budget pays for, so many hops are covered. */
  ghost predicate Covered(c: System, ret: seq<int>)
    requires WellFormed(c) && |ret| == |c|
  {
    forall q: nat :: q * EdgeCount(c) <= Budget(c) ==> Below(c, ret, q)
  }

  lemma SpentNothing(c: System)
    ensures Spent(c, 0, {}, 0)
  {
  }

  lemma SpentRow(c: System, hops: nat, S: set<int>, i: nat, used: nat)
    requires i < |c| && i !in S && Spent(c, hops, S, used - Pairs(c[i]))
    ensures Spent(c, hops, S + {i}, used)
  {
    CostAdd(c, S, i, |c|);
  }

  lemma SpentPass(c: System, hops: nat, S: set<int>, used: nat)
    requires Spent(c, hops, S, used)
    ensures Spent(c, hops + 1, {}, used)
  {
    CostBound(c, S, |c|);
    CostEmpty(c, |c|);
    OneMore(hops, EdgeCount(c));
  }

  lemma NotYet(q: nat, h: nat, E: nat)
    ensures q > h ==> q * E >= h * E + E
  {
    if q > h {
      Scaled(h + 1, q, E);
      OneMore(h, E);
    }
  }

  /** Out of budget inside row `i`: the pass is not over. */
  lemma MidRow(c: System, ret: seq<int>, base: seq<int>, hops: nat, S: set<int>, i: nat, p: nat)
    requires WellFormed(c) && |base| == |c| && AtMost(ret, base) && Below(c, base, hops)
    requires i < |c| && i !in S && p < Pairs(c[i]) && Spent(c, hops, S, Budget(c) - p)
    ensures Covered(c, ret)
  {
    CostAdd(c, S, i, |c|);
    CostBound(c, S + {i}, |c|);
    forall q: nat | q * EdgeCount(c) <= Budget(c) ensures Below(c, ret, q) {
      NotYet(q, hops, EdgeCount(c));
      Reached(c, ret, base, hops, q);
    }
  }

  /** Out of budget between two rows. */
  lemma RowsEnd(c: System, ret: seq<int>, via: seq<Walk>, queue: seq<int>, inq: seq<bool>, pass: Pass)
    requires WellFormed(c) && Ready(c, ret, via, queue, inq, pass, Budget(c), -1)
    requires Spent(c, pass.hops, pass.finished, Budget(c))
    ensures Covered(c, ret)
  {
    hide Ready;
    Unpack(c, ret, via, queue, inq, pass, Budget(c), -1);
    forall q: nat | q * EdgeCount(c) <= Budget(c) ensures Below(c, ret, q) {
      Exhausted(c, ret, via, queue, inq, pass, Budget(c), q);
    }
  }

  lemma Drained(c: System, ret: seq<int>)
    requires WellFormed(c) && |ret| == |c| && Quiet(c, ret, ret, [], -1)
    ensures Satisfies(c, ret)
  {
  }

  lemma BudgetIs(c: System, nedges: nat)
    requires nedges == EdgeCount(c) % UINT
    ensures ((|c| - 1) * nedges) % UINT == Budget(c)
  {
    ModTimes(|c| - 1, EdgeCount(c));
  }

  /** Relaxes the constraints of row `i` for as long as the budget lasts. */
  method RelaxRow(c: System, i: nat, ret0: seq<int>, queue0: seq<int>, inq0: seq<bool>, iter0: nat,
                  ghost via0: seq<Walk>, ghost pass: Pass, ghost used0: nat)
    returns (ret: seq<int>, queue: seq<int>, inq: seq<bool>, iter: nat, fits: bool, ghost via: seq<Walk>,
      ghost used: nat)
    requires WellFormed(c) && i < |c| == |ret0| && Ready(c, ret0, via0, queue0, inq0, pass, used0, i)
    requires Tight(c, ret0, ret0, i, 0) && iter0 + used0 == Budget(c) && Held(ret0)
    ensures Held(ret)
    ensures iter + used == Budget(c) && |ret| == |c| && Ready(c, ret, via, queue, inq, pass, used, i)
    ensures !fits ==> Leaves(c)
    ensures fits && used == used0 + Pairs(c[i]) ==> Tight(c, ret, ret, i, Pairs(c[i]))
    ensures fits && used != used0 + Pairs(c[i]) ==> iter == 0 && used0 <= used < used0 + Pairs(c[i])
    ensures used == used0 ==> queue == queue0
  {
    hide Below, Realised, Tracks, Quiet, InPass, Ready, Leaves, Budget, AtMost;
    ret, queue, inq, iter, fits, via, used := ret0, queue0, inq0, iter0, true, via0, used0;
    assert RowOk(c, i);
    Unpack(c, ret, via, queue, inq, pass, used, i);
    var at := 0;
    while iter > 0 && at < |c[i]|
      invariant fits && at % 2 == 0 && 0 <= at <= |c[i]| && (at == 0 ==> queue == queue0)
      invariant iter + used == Budget(c) && used == used0 + at / 2
      invariant |ret| == |via| == |inq| == |c| && Ready(c, ret, via, queue, inq, pass, used, i)
      invariant Tight(c, ret, ret, i, at / 2) && Held(ret)
    {
      hide Tight;
      assert PairOk(c, i, at / 2);
      var j, k := c[i][at], c[i][at + 1];
      iter := iter - 1;
      if !Fits(ret[i] + k) {
        Unpack(c, ret, via, queue, inq, pass, used, i);
        HopFits(c, ret, via, used, i, at / 2);
        ReadyMore(c, ret, via, queue, inq, pass, used, i);
        used := used + 1;
        fits := false;
        return;
      }
      if ret[j] > ret[i] + k {
        Lower(c, ret, via, queue, inq, pass, used, i, at / 2);
        via := via[j := Step(via[i], at / 2)];
        ret := ret[j := ret[i] + k];
        if !inq[j] {
          queue := queue + [j];
          inq := inq[j := true];
        } else {
          assert inq == inq[j := true];
        }
      } else {
        Hold(c, ret, via, queue, inq, pass, used, i, at / 2);
      }
      used := used + 1;
      at := at + 2;
    }
  }

  /** Relaxes constraints, first queued first, until none is left or the budget is spent. */
  method Relax(c: System, nedges: nat, queue0: seq<int>)
    returns (ret: seq<int>, fits: bool, ghost via: seq<Walk>, ghost used: nat)
    requires WellFormed(c) && nedges == EdgeCount(c) % UINT && queue0 == Indices(|c|)
    ensures !fits ==> Leaves(c)
    ensures used <= Budget(c) && Realised(c, ret, via, used) && AtMost(ret, Zeros(c)) && Held(ret)
    ensures fits ==> Satisfies(c, ret) || Covered(c, ret)
  {
    hide Tight, Below, Realised, Tracks, Quiet, InPass, Ready, Leaves, EdgeCount, Budget, AtMost, Satisfies, Spent,
      Covered;
    var queue, inq := queue0, seq(|c|, _ => true);
    ret := seq(|c|, _ => 0);
    fits := true;
    var iter: nat := ((|c| - 1) * nedges) % UINT;
    BudgetIs(c, nedges);
    used, via := 0, seq(|c|, i requires 0 <= i < |c| => At(i));
    ghost var pass := Pass(ret, 0, queue, {});
    ghost var short := false;      // the budget ended in the middle of a row
    assert ret == Zeros(c);
    Begin(c);
    SpentNothing(c);
    Unpack(c, ret, via, queue, inq, pass, 0, -1);
    while iter > 0 && queue != []
      invariant fits && iter + used == Budget(c) && |ret| == |c| && Realised(c, ret, via, used) && AtMost(ret, Zeros(c))
      invariant Held(ret)
      invariant !short ==> Ready(c, ret, via, queue, inq, pass, used, -1) && Spent(c, pass.hops, pass.finished, used)
      invariant short ==> iter == 0 && Covered(c, ret)
      decreases iter, |queue|
    {
      if pass.cur == [] {
        NextPass(c, ret, via, queue, inq, pass, used);
        SpentPass(c, pass.hops, pass.finished, used);
        pass := Pass(ret, pass.hops + 1, queue, {});
      }
      Pop(c, ret, via, queue, inq, pass, used);
      var i := queue[0];
      queue, inq := queue[1..], inq[i := false];
      pass := pass.(cur := pass.cur[1..]);
      ghost var spent := used;
      ret, queue, inq, iter, fits, via, used := RelaxRow(c, i, ret, queue, inq, iter, via, pass, used);
      Unpack(c, ret, via, queue, inq, pass, used, i);
      if !fits {
        return;
      }
      if used != spent + Pairs(c[i]) {
        MidRow(c, ret, pass.base, pass.hops, pass.finished, i, used - spent);
        short := true;
      } else {
        EndRow(c, ret, via, queue, inq, pass, used, i);
        SpentRow(c, pass.hops, pass.finished, i, used);
        pass := pass.(finished := pass.finished + {i});
      }
    }
    if !short {
      Unpack(c, ret, via, queue, inq, pass, used, -1);
      if queue == [] {
        Drained(c, ret);
      } else {
        RowsEnd(c, ret, via, queue, inq, pass);
      }
    }
  }

  /** Checks every constraint against the values found. */
  method Confirm(c: System, ret: seq<int>, ghost via: seq<Walk>, ghost used: nat) returns (ok: bool, fits: bool)
    requires WellFormed(c) && used <= Budget(c) && Realised(c, ret, via, used)
    ensures !fits ==> Leaves(c)
    ensures fits ==> (ok <==> Satisfies(c, ret))
  {
    hide Leaves, Budget;
    for i := 0 to |c|
      invariant forall m :: 0 <= m < i ==> Tight(c, ret, ret, m, Pairs(c[m]))
    {
      var at := 0;
      while at < |c[i]|
        invariant at % 2 == 0 && 0 <= at <= |c[i]|
        invariant Tight(c, ret, ret, i, at / 2)
      {
        assert RowOk(c, i) && PairOk(c, i, at / 2);
        var j, k := c[i][at], c[i][at + 1];
        if !Fits(ret[i] + k) {
          HopFits(c, ret, via, used, i, at / 2);
          return false, false;
        }
        if ret[i] + k < ret[j] {
          assert !Tight(c, ret, ret, i, Pairs(c[i])) by {
            assert ret[Target(c[i], at / 2)] > ret[i] + Bound(c[i], at / 2);
          }
          return false, true;
        }
        at := at + 2;
      }
    }
    return true, true;
  }

  /** What an outcome says: a solution is the greatest of its kind, and the walks that the
      budget pays for decide between a solution and a rejection. */
  ghost predicate Answers(c: System, r: Outcome) {
    match r
    case Malformed => !WellFormed(c)
    case Overflow => WellFormed(c) && Leaves(c)
    case Solved(x) => WellFormed(c) && Greatest(c, x) && Held(x) && Shallow(c, Budget(c))
    case Unsatisfied => WellFormed(c) && forall q: nat :: q * EdgeCount(c) <= Budget(c) ==> !Shallow(c, q)
  }

  /** `Module::difference_constraints`. */
  method DifferenceConstraints(c: System) returns (r: Outcome)
    ensures Answers(c, r)
    ensures !r.Malformed? <==>
      && (forall i :: 0 <= i < |c| ==> |c[i]| % 2 == 0)
      && forall i, k :: 0 <= i < |c| && 0 <= k < |c[i]| && k % 2 == 0 ==>
           0 <= c[i][k] < |c| && (c[i][k] == i ==> c[i][k + 1] >= 0)
    ensures r.Solved? ==>
      && |r.value| == |c| && (forall j :: 0 <= j < |c| ==> -0x8000_0000_0000_0000 <= r.value[j] <= 0)
      && forall i, k :: 0 <= i < |c| && 0 <= k < |c[i]| - 1 && k % 2 == 0 ==>
           0 <= c[i][k] < |c| && r.value[c[i][k]] - r.value[i] <= c[i][k + 1]
  {
    hide Leaves, Budget, Shallow, Below, Realised, EdgeCount;
    WellFormedIs(c);
    hide WellFormed, Satisfies;
    var ok, nedges, queue := Read(c);
    if !ok {
      return Malformed;
    }
    var ret, fits, via, used := Relax(c, nedges, queue);
    if !fits {
      return Overflow;
    }
    ok, fits := Confirm(c, ret, via, used);
    if !fits {
      return Overflow;
    }
    if !ok {
      forall q: nat | q * EdgeCount(c) <= Budget(c) ensures !Shallow(c, q) {
        if Shallow(c, q) {
          Complete(c, ret, via, used, q);
        }
      }
      return Unsatisfied;
    }
    RealisedGreatest(c, ret, via, used);
    SolvedShallow(c, ret, via, used);
    ShallowMore(c, used, Budget(c));
    SatisfiesIs(c, ret);
    return Solved(ret);
  }

  lemma ShallowMore(c: System, h: nat, k: nat)
    requires WellFormed(c) && Shallow(c, h) && h <= k
    ensures Shallow(c, k)
  {
    forall w | IsWalk(c, w) ensures Undercut(c, w, k) {
      ShallowAt(c, w, h);
    }
  }

  ghost predicate Satisfiable(c: System)
    requires WellFormed(c)
  {
    exists x :: Satisfies(c, x)
  }

  /** A budget that fits in an `unsigned int` never rejects a satisfiable system. */
  lemma SolvedIffSatisfiable(c: System, r: Outcome)
    requires WellFormed(c) && Answers(c, r) && !r.Overflow? && (|c| - 1) * EdgeCount(c) < 0x1_0000_0000
    ensures r.Solved? <==> Satisfiable(c)
  {
    if r.Solved? {
      assert Satisfies(c, r.value);
    }
    if x :| Satisfies(c, x) {
      if c == [] {
        assert 0 * EdgeCount(c) <= Budget(c) && Shallow(c, 0);
      } else {
        SatisfiableShallow(c, x);
        Times(|c| - 1, EdgeCount(c));
        assert (|c| - 1) * EdgeCount(c) <= Budget(c);
      }
    }
  }

  /** While the largest bound times the budget and one fits in int64, so does every sum. */
  lemma NoOverflow(c: System, r: Outcome, most: int)
    requires Answers(c, r) && most >= 0 && (Budget(c) + 1) * most < 0x8000_0000_0000_0000
    requires forall i, k :: 0 <= i < |c| && 0 <= k < |c[i]| && k % 2 == 1 ==> -most <= c[i][k] <= most
    ensures !r.Overflow?
  {
    hide Budget, Leaves;
    if r.Overflow? {
      LeavesWide(c, most);
    }
  }

  lemma FirstHop(c: System, i: nat, p: nat)
    requires WellFormed(c) && Shallow(c, 0) && i < |c| && p < Pairs(c[i]) && PairOk(c, i, p)
    ensures 0 <= Bound(c[i], p)
  {
    var start := At(i);
    assert RowOk(c, i) && IsWalk(c, start) && End(c, start) == i && Length(c, start) == 0;
    ShallowZero(c, Step(start, p), 0);
  }

  lemma ShallowZero(c: System, w: Walk, h: nat)
    requires WellFormed(c) && Shallow(c, h) && h == 0 && IsWalk(c, w)
    ensures 0 <= Length(c, w)
  {
    ShallowAt(c, w, h);
  }

  lemma ZerosSatisfy(c: System)
    requires WellFormed(c)
    requires forall i, p :: 0 <= i < |c| && 0 <= p < Pairs(c[i]) ==>
      RowOk(c, i) && PairOk(c, i, p) && 0 <= Bound(c[i], p)
    ensures Satisfies(c, Zeros(c))
  {
  }

  /** A budget that wraps around to zero leaves only the systems that zeros satisfy. */
  lemma SolvedIffZerosDo(c: System, r: Outcome)
    requires WellFormed(c) && Answers(c, r) && !r.Overflow?
    requires ((|c| - 1) * EdgeCount(c)) % 0x1_0000_0000 == 0
    ensures r.Solved? <==> Satisfies(c, Zeros(c))
  {
    if r.Solved? {
      forall i, p | 0 <= i < |c| && 0 <= p < Pairs(c[i]) ensures RowOk(c, i) && PairOk(c, i, p) && 0 <= Bound(c[i], p) {
        assert RowOk(c, i) && PairOk(c, i, p);
        FirstHop(c, i, p);
      }
      ZerosSatisfy(c);
    }
    if Satisfies(c, Zeros(c)) {
      forall w | IsWalk(c, w) ensures Undercut(c, w, 0) {
        SolutionBelow(c, Zeros(c), w);
        assert IsWalk(c, At(End(c, w)));
      }
      assert 0 * EdgeCount(c) <= Budget(c) && Shallow(c, 0);
    }
  }

  /** `x[1] - x[0] <= -1`, `x[2] - x[1] <= -1`, and so on. */
  function Chain(n: nat): System {
    seq(n, i => if i < n - 1 then [i + 1, -1] else [])
  }

  lemma {:induction false} ChainEdges(n: nat, m: nat)
    requires m < n
    ensures EdgesTo(Chain(n), m) == m
  {
    if m > 0 { ChainEdges(n, m - 1); }
  }

  lemma ChainSize(n: nat)
    requires n > 0
    ensures EdgeCount(Chain(n)) == n - 1
  {
    ChainEdges(n, n - 1);
  }

  lemma ChainRejected(n: nat, r: Outcome)
    requires n > 1 && Answers(Chain(n), r) && Budget(Chain(n)) == 0
    ensures WellFormed(Chain(n)) && Satisfiable(Chain(n)) && r.Unsatisfied?
  {
    hide Budget, Shallow, Greatest, EdgeCount;
    var c := Chain(n);
    ChainWellFormed(n);
    ChainSatisfiable(n);
    ChainNarrow(n);
    BudgetWraps(c);
    SolvedIffZerosDo(c, r);
    ChainNotByZeros(n);
  }

  lemma ChainNotByZeros(n: nat)
    requires n > 1 && WellFormed(Chain(n))
    ensures !Satisfies(Chain(n), Zeros(Chain(n)))
  {
    var c := Chain(n);
    assert c[0] == [1, -1];
    assert Target(c[0], 0) == 1 && Bound(c[0], 0) == -1;
    assert !Tight(c, Zeros(c), Zeros(c), 0, Pairs(c[0]));
  }

  lemma ChainNarrow(n: nat)
    requires Budget(Chain(n)) == 0 && WellFormed(Chain(n))
    ensures !Leaves(Chain(n))
  {
    hide Budget, Leaves;
    if Leaves(Chain(n)) {
      LeavesWide(Chain(n), 1);
    }
  }

  /** With 65537 variables in a chain, the product 65536 * 65536 wraps around to a budget
      of zero: the system is satisfiable, and rejected. */
  lemma WrappedBudget(n: nat, r: Outcome)
    requires n == 65537 && Answers(Chain(n), r)
    ensures WellFormed(Chain(n)) && Satisfiable(Chain(n)) && r.Unsatisfied?
  {
    hide Answers, Satisfiable;
    ChainSize(n);
    assert (n - 1) * (n - 1) == UINT;
    ChainRejected(n, r);
  }

  lemma ChainWellFormed(n: nat)
    ensures WellFormed(Chain(n))
  {
    var c := Chain(n);
    forall i, p | 0 <= i < n && 0 <= p < Pairs(c[i]) ensures PairOk(c, i, p) {
      assert p == 0 && c[i] == [i + 1, -1];
    }
  }

  lemma ChainSatisfiable(n: nat)
    requires WellFormed(Chain(n))
    ensures Satisfiable(Chain(n))
  {
    var c, x := Chain(n), seq(n, i => -i);
    forall i, p | 0 <= i < n && 0 <= p < Pairs(c[i])
      ensures RowOk(c, i) && PairOk(c, i, p) && x[Target(c[i], p)] <= x[i] + Bound(c[i], p)
    {
      assert p == 0 && c[i] == [i + 1, -1];
      assert RowOk(c, i);
    }
    assert Satisfies(c, x);
  }
}
