// Maximum bipartite matching by augmenting paths.

module Matching {
  import opened Base

  /** For each left node, the right nodes it is connected to. */
  type Edges = seq<seq<int>>

  datatype Outcome =
    | Matched(value: seq<int>)
    | InvalidArgument          // a negative index: the exception
    | OutOfBounds              // an access outside `visited`: undefined in the source

  predicate Uses(g: Edges, j: int) {
    exists l :: 0 <= l < |g| && j in g[l]
  }

  /** Which right node each left node is matched to, or -1. */
  ghost predicate IsMatching(g: Edges, m: seq<int>) {
    && |m| == |g|
    && (forall l :: 0 <= l < |m| && m[l] != -1 ==> m[l] in g[l])
    && (forall k, l :: 0 <= k < l < |m| && m[k] != -1 ==> m[k] != m[l])
  }

  ghost function MatchedNodes(m: seq<int>): set<int> {
    set l | 0 <= l < |m| && m[l] != -1
  }

  // ---- edges beyond `visited` ------------------------------------------------------

  /** The edges of one node that come before the first one beyond `visited`. */
  function Cut(row: seq<int>, n: int): (r: seq<int>)
    ensures r <= row && forall j :: j in r ==> j < n
    ensures |r| < |row| ==> row[|r|] >= n
  {
    if row == [] || row[0] >= n then [] else [row[0]] + Cut(row[1..], n)
  }

  function InRange(g: Edges): (r: Edges)
    ensures |r| == |g|
  {
    seq(|g|, l requires 0 <= l < |g| => Cut(g[l], |g|))
  }

  /** All nodes with an edge beyond `visited` are matched. */
  ghost predicate Covers(g: Edges, m: seq<int>) {
    |m| == |g| && forall l :: 0 <= l < |g| && InRange(g)[l] != g[l] ==> m[l] != -1
  }

  lemma CutHas(row: seq<int>, n: int, c: int)
    requires 0 <= c < |row| && forall k :: 0 <= k <= c ==> row[k] < n
    ensures row[c] in Cut(row, n)
  {
    var r := Cut(row, n);
    assert c < |r|;
    assert r[c] == row[c];
  }

  lemma {:induction false} CutWhole(row: seq<int>, n: int)
    requires forall k :: 0 <= k < |row| ==> row[k] < n
    ensures Cut(row, n) == row
  {
    if row != [] {
      CutWhole(row[1..], n);
      assert row == [row[0]] + row[1..];
    }
  }

  /** Every match so far was found before any edge beyond `visited`. */
  ghost predicate Sound(g: Edges, ret: seq<int>) {
    |ret| == |g| && forall l :: 0 <= l < |g| && ret[l] != -1 ==> ret[l] in Cut(g[l], |g|)
  }

  lemma SoundTake(g: Edges, ret: seq<int>, v: seq<bool>, curr: int, c: int)
    requires Sound(g, ret) && 0 <= curr < |g| && 0 <= c < |g[curr]| && |v| == |g|
    requires forall k :: 0 <= k <= c ==> Seen(v, g[curr][k])
    ensures Sound(g, ret[curr := g[curr][c]])
  {
    CutHas(g[curr], |g|, c);
  }

  // ---- the two sides of the assignment --------------------------------------------

  /** `ret` and `right` describe the same matching from either side. */
  ghost predicate Paired(g: Edges, ret: seq<int>, right: seq<int>) {
    && |ret| == |g|
    && (forall j :: 0 <= j < |right| && right[j] != -1 ==> 0 <= right[j] < |ret| && ret[right[j]] == j)
    && (forall l :: 0 <= l < |ret| && ret[l] != -1 ==> 0 <= ret[l] < |right| && right[ret[l]] == l && ret[l] in g[l])
  }

  /** All of `g`'s right nodes lie within `0..n`. */
  ghost predicate Within(g: Edges, n: int) {
    forall l, k :: 0 <= l < |g| && 0 <= k < |g[l]| ==> 0 <= g[l][k] < n
  }

  /** The certificate of earlier failures: `L` leads only to `V`, and `V` is matched into `L`. */
  ghost predicate Frozen(g: Edges, right: seq<int>, V: set<int>, L: set<int>) {
    && (forall l :: l in L ==> 0 <= l < |g| && forall j :: j in g[l] ==> j in V)
    && (forall j :: j in V ==> 0 <= j < |right| && right[j] != -1 && right[j] in L)
  }

  ghost function Unvisited(visited: seq<bool>): set<int> {
    set j | 0 <= j < |visited| && !visited[j]
  }

  ghost predicate Grown(v: seq<bool>, w: seq<bool>) {
    |v| == |w| && forall j :: 0 <= j < |v| && v[j] ==> w[j]
  }

  ghost predicate Seen(visited: seq<bool>, j: int) {
    0 <= j < |visited| && visited[j]
  }

  /** Everything the search has newly seen leads only to what it has seen. */
  ghost predicate Explored(g: Edges, right: seq<int>, v: seq<bool>, w: seq<bool>) {
    forall j :: Seen(w, j) && !Seen(v, j) ==>
      && 0 <= j < |right| && 0 <= right[j] < |g|
      && forall k :: k in g[right[j]] ==> Seen(w, k)
  }

  /** The assignment with the slot that `curr` had before taken away from it. */
  ghost function Vacated(right: seq<int>, slot: int): seq<int>
    requires slot == -1 || 0 <= slot < |right|
  {
    if slot == -1 then right else right[slot := -1]
  }

  /** A successful search from `curr`: one more left node is matched and nobody else has
      become matched or unmatched; the slot that `curr` leaves is for the caller to fill. */
  ghost predicate Augmented(g: Edges, ret0: seq<int>, right0: seq<int>, v0: seq<bool>, ret: seq<int>, right: seq<int>,
                            curr: int, V: set<int>) {
    && |ret| == |ret0| == |g| && |right| == |right0| && 0 <= curr < |g| && ret[curr] != -1
    && (ret0[curr] == -1 || 0 <= ret0[curr] < |right|)
    && Paired(g, ret, Vacated(right, ret0[curr]))
    && (forall l :: 0 <= l < |g| && l != curr ==> (ret[l] == -1 <==> ret0[l] == -1))
    && (forall j :: 0 <= j < |right| && (Seen(v0, j) || j in V) ==> right[j] == right0[j])
  }

  lemma TakeFree(g: Edges, ret: seq<int>, right: seq<int>, v: seq<bool>, curr: int, j: int, V: set<int>, L: set<int>)
    requires Paired(g, ret, right) && 0 <= curr < |g| && j in g[curr] && 0 <= j < |right| && right[j] == -1
    requires Frozen(g, right, V, L) && !Seen(v, j)
    ensures Augmented(g, ret, right, v, ret[curr := j], right[j := curr], curr, V) && curr !in L
  {
  }

  /** Filling the vacated slot `j` keeps the two sides in step. */
  lemma PairTaken(g: Edges, ret: seq<int>, right: seq<int>, curr: int, j: int, slot: int)
    requires 0 <= curr < |g| && j in g[curr] && 0 <= j < |right| && Paired(g, ret, right[j := -1])
    requires slot == ret[curr] && slot != j && (slot != -1 ==> 0 <= slot < |right|)
    ensures Paired(g, ret[curr := j], Vacated(right[j := curr], slot))
  {
    var right1 := Vacated(right[j := curr], slot);
    if slot != -1 {
      assert right[j := -1][slot] == curr;
    }
    forall k | 0 <= k < |right1| && right1[k] != -1 ensures 0 <= right1[k] < |ret| && ret[curr := j][right1[k]] == k {
      if k != j {
        assert right1[k] == right[j := -1][k];
      }
    }
    forall l | 0 <= l < |ret| && l != curr && ret[l] != -1
      ensures 0 <= ret[l] < |right1| && right1[ret[l]] == l
    {
      assert right[j := -1][ret[l]] == l;
    }
  }

  lemma PairedSearchable(g: Edges, ret: seq<int>, right: seq<int>, visited: seq<bool>)
    requires Paired(g, ret, right) && Within(g, |right|) && |visited| == |g|
    ensures Searchable(g, ret, right, visited)
  {
  }

  /** `curr` takes the slot `j` that a successful search has vacated. */
  lemma TakeVacated(g: Edges, ret0: seq<int>, right0: seq<int>, v0: seq<bool>, v: seq<bool>, ret: seq<int>,
      right: seq<int>,
                    curr: int, j: int, V: set<int>, L: set<int>)
    requires Paired(g, ret0, right0) && 0 <= curr < |g| && j in g[curr] && 0 <= j < |right0|
    requires right0[j] != -1 && right0[j] !in L && Frozen(g, right0, V, L)
    requires Grown(v0, v) && Seen(v, j) && !Seen(v0, j) && (ret0[curr] != -1 ==> Seen(v0, ret0[curr]))
    requires Augmented(g, ret0, right0, v, ret, right, right0[j], V)
    ensures Augmented(g, ret0, right0, v0, ret[curr := j], right[j := curr], curr, V) && curr !in L
  {
    var slot := ret0[curr];
    assert ret0[right0[j]] == j && slot != j;
    assert Paired(g, ret, right[j := -1]);
    if slot == -1 {
      assert ret[curr] == -1;
    } else {
      assert right[slot] == right0[slot] == curr;
      assert right[j := -1][slot] == curr;
    }
    PairTaken(g, ret, right, curr, j, slot);
  }

  // ---- the search as a function ------------------------------------------------------

  /** How a search ends: with the new state, or with an access beyond `visited`. */
  datatype Found = Found(ok: bool, ret: seq<int>, right: seq<int>, visited: seq<bool>) | Fault

  ghost predicate Searchable(g: Edges, ret: seq<int>, right: seq<int>, visited: seq<bool>) {
    && |visited| == |ret| == |g| && Within(g, |right|)
    && forall j :: 0 <= j < |right| ==> right[j] == -1 || 0 <= right[j] < |g|
  }

  /** The search from `curr`, from its edge `c` on. */
  ghost function Search(g: Edges, ret: seq<int>, right: seq<int>, visited: seq<bool>, curr: int, c: int): (f: Found)
    requires Searchable(g, ret, right, visited) && 0 <= curr < |g| && 0 <= c <= |g[curr]|
    ensures f.Found? ==>
      Searchable(g, f.ret, f.right, f.visited) && |f.right| == |right| && Unvisited(f.visited) <= Unvisited(visited)
    ensures f.Found? && !f.ok ==> f.ret == ret && f.right == right
    decreases Unvisited(visited), |g[curr]| - c
  {
    if c == |g[curr]| then Found(false, ret, right, visited)
    else
      var j := g[curr][c];
      if j >= |visited| then Fault
      else if visited[j] then Search(g, ret, right, visited, curr, c + 1)
      else
        var v := visited[j := true];
        assert j in Unvisited(visited) && j !in Unvisited(v);
        if right[j] == -1 then Found(true, ret[curr := j], right[j := curr], v)
        else match Search(g, ret, right, v, right[j], 0)
          case Fault => Fault
          case Found(ok, ret1, right1, v1) =>
            if ok then Found(true, ret1[curr := j], right1[j := curr], v1)
            else Search(g, ret1, right1, v1, curr, c + 1)
  }

  /** One round of the search's loop. */
  lemma SearchRound(g: Edges, ret: seq<int>, right: seq<int>, visited: seq<bool>, curr: int, c: int)
    requires Searchable(g, ret, right, visited) && 0 <= curr < |g| && 0 <= c < |g[curr]|
    ensures var s, j := Search(g, ret, right, visited, curr, c), g[curr][c];
      && 0 <= j < |right| && |visited| == |ret| == |g|
      && (j >= |g| ==> s == Fault)
      && (j < |g| && visited[j] ==> s == Search(g, ret, right, visited, curr, c + 1))
      && (j < |g| && !visited[j] && right[j] == -1 ==>
            s == Found(true, ret[curr := j], right[j := curr], visited[j := true]))
  {
  }

  /** The same where the right node has to be taken over. */
  lemma SearchTakes(g: Edges, ret: seq<int>, right: seq<int>, visited: seq<bool>, curr: int, c: int)
    requires Searchable(g, ret, right, visited) && 0 <= curr < |g| && 0 <= c < |g[curr]|
    requires g[curr][c] < |g| && !visited[g[curr][c]] && 0 <= g[curr][c] < |right| && right[g[curr][c]] != -1
    ensures var s, j := Search(g, ret, right, visited, curr, c), g[curr][c];
      && Searchable(g, ret, right, visited[j := true]) && 0 <= right[j] < |g|
      && (match Search(g, ret, right, visited[j := true], right[j], 0)
          case Fault => s == Fault
          case Found(ok, ret1, right1, v1) =>
            && Searchable(g, ret1, right1, v1) && |right1| == |right|
            && s == if ok then Found(true, ret1[curr := j], right1[j := curr], v1)
                    else Search(g, ret1, right1, v1, curr, c + 1))
  {
  }

  lemma SearchEnd(g: Edges, ret: seq<int>, right: seq<int>, visited: seq<bool>, curr: int)
    requires Searchable(g, ret, right, visited) && 0 <= curr < |g|
    ensures Search(g, ret, right, visited, curr, |g[curr]|) == Found(false, ret, right, visited)
  {
  }

  /** The searches from the left nodes from `i` on. */
  ghost function Searches(g: Edges, ret: seq<int>, right: seq<int>, i: nat): Outcome
    requires i <= |g| && Searchable(g, ret, right, seq(|g|, _ => false))
    decreases |g| - i
  {
    if i == |g| then Matched(ret)
    else match Search(g, ret, right, seq(|g|, _ => false), i, 0)
      case Fault => OutOfBounds
      case Found(_, ret1, right1, _) => Searches(g, ret1, right1, i + 1)
  }

  /** One more than the largest right node. */
  ghost function Width(g: Edges): (n: nat)
    ensures forall l, k :: 0 <= l < |g| && 0 <= k < |g[l]| ==> g[l][k] < n
  {
    if g == [] then 0 else
      var n, m := Width(g[..|g| - 1]), RowWidth(g[|g| - 1]);
      assert forall l :: 0 <= l < |g| - 1 ==> g[l] == g[..|g| - 1][l];
      Larger(n, m)
  }

  ghost function RowWidth(row: seq<int>): (n: nat)
    ensures forall k :: 0 <= k < |row| ==> row[k] < n
  {
    if row == [] then 0 else
      var n := RowWidth(row[..|row| - 1]);
      assert forall k :: 0 <= k < |row| - 1 ==> row[k] == row[..|row| - 1][k];
      Larger(n, row[|row| - 1] + 1)
  }

  function Larger(n: nat, m: int): nat {
    if n < m then m else n
  }

  lemma WidthMore(g: Edges, i: nat)
    requires i < |g|
    ensures Width(g[..i + 1]) == Larger(Width(g[..i]), RowWidth(g[i]))
  {
    assert g[..i + 1][..i] == g[..i];
  }

  lemma RowMore(row: seq<int>, k: nat)
    requires k < |row|
    ensures RowWidth(row[..k + 1]) == Larger(RowWidth(row[..k]), row[k] + 1)
  {
    assert row[..k + 1][..k] == row[..k];
  }

  ghost predicate NonNegative(g: Edges) {
    forall l, k :: 0 <= l < |g| && 0 <= k < |g[l]| ==> 0 <= g[l][k]
  }

  /** The outcome for a graph without negative nodes: all the searches, from nothing matched. */
  ghost function Match(g: Edges): Outcome
    requires NonNegative(g)
  {
    Searches(g, seq(|g|, _ => -1), seq(Width(g), _ => -1), 0)
  }

  class Matcher {
    const graph: Edges
    var ret: seq<int>
    var right: seq<int>
    var visited: seq<bool>

    constructor (g: Edges)
      requires NonNegative(g)
      ensures graph == g && ret == seq(|g|, _ => -1) && right == seq(Width(g), _ => -1)
    {
      graph := g;
      ret, visited, right := seq(|g|, _ => -1), seq(|g|, _ => false), [];
      new;
      for i := 0 to |g|
        invariant |visited| == |g| && ret == seq(|g|, _ => -1)
        invariant right == seq(Width(g[..i]), _ => -1)
      {
        assert g[i][..0] == [] && g[i][..|g[i]|] == g[i];
        for k := 0 to |g[i]|
          invariant |visited| == |g| && ret == seq(|g|, _ => -1)
          invariant right == seq(Larger(Width(g[..i]), RowWidth(g[i][..k])), _ => -1)
        {
          var j := g[i][k];
          RowMore(g[i], k);
          if j >= |right| {
            right := right + seq(j + 1 - |right|, _ => -1);
          }
        }
        WidthMore(g, i);
      }
      assert g[..|g|] == g;
    }

    /** The search for an augmenting path from the left node `curr`. */
    method Dfs(curr: int) returns (ok: bool, fault: bool)
      requires Searchable(graph, ret, right, visited) && 0 <= curr < |graph|
      modifies this`ret, this`right, this`visited
      ensures Search(graph, old(ret), old(right), old(visited), curr, 0)
        == if fault then Fault else Found(ok, ret, right, visited)
      decreases Unvisited(visited)
    {
      hide Searchable, Search;
      for c := 0 to |graph[curr]|
        invariant Searchable(graph, ret, right, visited) && Unvisited(visited) <= Unvisited(old(visited))
        invariant Search(graph, old(ret), old(right), old(visited), curr, 0)
          == Search(graph, ret, right, visited, curr, c)
      {
        var j := graph[curr][c];
        SearchRound(graph, ret, right, visited, curr, c);
        if j >= |visited| {
          return false, true;
        }
        if visited[j] {
          continue;
        }
        ghost var seen := visited;
        visited := visited[j := true];
        assert j in Unvisited(seen) && j !in Unvisited(visited);
        if right[j] == -1 {
          ret := ret[curr := j];
          right := right[j := curr];
          return true, false;
        }
        SearchTakes(graph, ret, right, seen, curr, c);
        var sub, bad := Dfs(right[j]);
        if bad {
          return false, true;
        }
        if sub {
          ret := ret[curr := j];
          right := right[j := curr];
          return true, false;
        }
      }
      SearchEnd(graph, ret, right, visited, curr);
      return false, false;
    }
  }

  // ---- what a search does -----------------------------------------------------------

  /** In the middle of the search from `curr`, whose edges before `c` have been seen. */
  ghost predicate Midway(g: Edges, ret: seq<int>, right: seq<int>, v0: seq<bool>, visited: seq<bool>, curr: int, c: int,
                         V: set<int>, L: set<int>) {
    && Paired(g, ret, right) && Within(g, |right|) && |visited| == |g| && 0 <= curr < |g| && 0 <= c <= |g[curr]|
    && Sound(g, ret) && Frozen(g, right, V, L) && (ret[curr] != -1 ==> Seen(v0, ret[curr]))
    && Grown(v0, visited) && Explored(g, right, v0, visited) && forall k :: 0 <= k < c ==> Seen(visited, g[curr][k])
  }

  /** A search that fails changes nothing and has seen all that its nodes lead to; one that
      succeeds matches one more left node; an access beyond `visited` needs such an edge. */
  ghost predicate Ended(g: Edges, ret: seq<int>, right: seq<int>, v0: seq<bool>, f: Found, curr: int,
                        V: set<int>, L: set<int>)
    requires 0 <= curr < |g|
  {
    match f
    case Fault => exists j :: Uses(g, j) && j >= |g|
    case Found(ok, ret1, right1, v1) =>
      && Grown(v0, v1) && |v1| == |g| && Sound(g, ret1) && |ret1| == |g| && |right1| == |right|
      && if ok then curr !in L && Augmented(g, ret, right, v0, ret1, right1, curr, V)
         else ret1 == ret && right1 == right && Explored(g, right, v0, v1) && forall j :: j in g[curr] ==> Seen(v1, j)
  }

  lemma MidwaySearchable(g: Edges, ret: seq<int>, right: seq<int>, v0: seq<bool>, visited: seq<bool>, curr: int, c: int,
      V: set<int>, L: set<int>)
    requires Midway(g, ret, right, v0, visited, curr, c, V, L)
    ensures Searchable(g, ret, right, visited) && 0 <= curr < |g| && 0 <= c <= |g[curr]|
  {
    PairedSearchable(g, ret, right, visited);
  }

  lemma {:induction false} SearchKeeps(g: Edges, ret: seq<int>, right: seq<int>, v0: seq<bool>, visited: seq<bool>,
      curr: int, c: int, V: set<int>, L: set<int>)
    requires Midway(g, ret, right, v0, visited, curr, c, V, L)
    ensures Searchable(g, ret, right, visited) && 0 <= curr < |g| && 0 <= c <= |g[curr]|
    ensures Ended(g, ret, right, v0, Search(g, ret, right, visited, curr, c), curr, V, L)
    decreases Unvisited(visited), |g[curr]| - c
  {
    hide Midway, Ended, Search, Searchable, Paired, Frozen, Sound, Explored, Grown, Augmented;
    MidwaySearchable(g, ret, right, v0, visited, curr, c, V, L);
    if c == |g[curr]| {
      SearchEnd(g, ret, right, visited, curr);
      EndedAll(g, ret, right, v0, visited, curr, V, L);
      return;
    }
    var j := g[curr][c];
    SearchRound(g, ret, right, visited, curr, c);
    MidwaySize(g, ret, right, v0, visited, curr, c, V, L);
    if j >= |g| {
      EndedFault(g, ret, right, v0, curr, j, V, L);
    } else if visited[j] {
      MidwaySkip(g, ret, right, v0, visited, curr, c, V, L);
      SearchKeeps(g, ret, right, v0, visited, curr, c + 1, V, L);
    } else if right[j] == -1 {
      EndedFree(g, ret, right, v0, visited, curr, c, V, L);
    } else {
      var v := visited[j := true];
      assert j in Unvisited(visited) && j !in Unvisited(v);
      SearchTakes(g, ret, right, visited, curr, c);
      MidwayDown(g, ret, right, v0, visited, curr, c, V, L);
      SearchKeeps(g, ret, right, v, v, right[j], 0, V, L);
      var f := Search(g, ret, right, v, right[j], 0);
      if f.Found? && !f.ok {
        MidwayUp(g, ret, right, v0, visited, f, curr, c, V, L);
        SearchKeeps(g, ret, right, v0, f.visited, curr, c + 1, V, L);
      } else {
        EndedTaken(g, ret, right, v0, visited, f, curr, c, V, L);
      }
    }
  }

  lemma MidwaySize(g: Edges, ret: seq<int>, right: seq<int>, v0: seq<bool>, visited: seq<bool>, curr: int, c: int,
      V: set<int>, L: set<int>)
    requires Midway(g, ret, right, v0, visited, curr, c, V, L)
    ensures |visited| == |g| && (c < |g[curr]| ==> Uses(g, g[curr][c]))
  {
  }

  lemma EndedAll(g: Edges, ret: seq<int>, right: seq<int>, v0: seq<bool>, visited: seq<bool>, curr: int,
      V: set<int>, L: set<int>)
    requires 0 <= curr < |g| && Midway(g, ret, right, v0, visited, curr, |g[curr]|, V, L)
    ensures Ended(g, ret, right, v0, Found(false, ret, right, visited), curr, V, L)
  {
  }

  lemma EndedFault(g: Edges, ret: seq<int>, right: seq<int>, v0: seq<bool>, curr: int, j: int, V: set<int>, L: set<int>)
    requires 0 <= curr < |g| && Uses(g, j) && j >= |g|
    ensures Ended(g, ret, right, v0, Fault, curr, V, L)
  {
  }

  lemma MidwayNext(g: Edges, ret: seq<int>, right: seq<int>, v0: seq<bool>, visited: seq<bool>, v: seq<bool>, curr: int,
      c: int, V: set<int>, L: set<int>)
    requires Midway(g, ret, right, v0, visited, curr, c, V, L) && c < |g[curr]|
    requires Grown(visited, v) && Explored(g, right, v0, v) && Seen(v, g[curr][c])
    ensures Midway(g, ret, right, v0, v, curr, c + 1, V, L)
  {
    hide Paired, Sound, Frozen, Explored;
  }

  lemma MidwaySkip(g: Edges, ret: seq<int>, right: seq<int>, v0: seq<bool>, visited: seq<bool>, curr: int, c: int,
      V: set<int>, L: set<int>)
    requires Midway(g, ret, right, v0, visited, curr, c, V, L) && c < |g[curr]| && Seen(visited, g[curr][c])
    ensures Midway(g, ret, right, v0, visited, curr, c + 1, V, L)
  {
    hide Paired, Sound, Frozen, Explored;
  }

  lemma EndedFree(g: Edges, ret: seq<int>, right: seq<int>, v0: seq<bool>, visited: seq<bool>, curr: int, c: int,
      V: set<int>, L: set<int>)
    requires Midway(g, ret, right, v0, visited, curr, c, V, L) && c < |g[curr]|
    requires 0 <= g[curr][c] < |g| && !visited[g[curr][c]] && g[curr][c] < |right| && right[g[curr][c]] == -1
    ensures var j := g[curr][c];
      Ended(g, ret, right, v0, Found(true, ret[curr := j], right[j := curr], visited[j := true]), curr, V, L)
  {
    hide Augmented, Sound, Explored;
    var j := g[curr][c];
    SoundTake(g, ret, visited[j := true], curr, c);
    TakeFree(g, ret, right, v0, curr, j, V, L);
  }

  lemma MidwayDown(g: Edges, ret: seq<int>, right: seq<int>, v0: seq<bool>, visited: seq<bool>, curr: int, c: int,
      V: set<int>, L: set<int>)
    requires Midway(g, ret, right, v0, visited, curr, c, V, L) && c < |g[curr]|
    requires 0 <= g[curr][c] < |g| && g[curr][c] < |right| && right[g[curr][c]] != -1
    ensures var j := g[curr][c]; var v := visited[j := true];
      Midway(g, ret, right, v, v, right[j], 0, V, L)
  {
    hide Sound, Frozen;
  }

  /** The search from the node that holds `j` has failed. */
  lemma MidwayUp(g: Edges, ret: seq<int>, right: seq<int>, v0: seq<bool>, visited: seq<bool>, f: Found, curr: int,
      c: int, V: set<int>, L: set<int>)
    requires Midway(g, ret, right, v0, visited, curr, c, V, L) && c < |g[curr]| && f.Found? && !f.ok
    requires 0 <= g[curr][c] < |g| && !visited[g[curr][c]] && g[curr][c] < |right|
    requires right[g[curr][c]] != -1 && 0 <= right[g[curr][c]] < |g|
    requires var j := g[curr][c]; Ended(g, ret, right, visited[j := true], f, right[j], V, L)
    ensures Midway(g, ret, right, v0, f.visited, curr, c + 1, V, L)
  {
    hide Sound, Frozen, Paired;
    var j := g[curr][c];
    assert Seen(visited[j := true], j);
    forall k | Seen(f.visited, k) && !Seen(v0, k)
      ensures 0 <= k < |right| && 0 <= right[k] < |g| && forall m :: m in g[right[k]] ==> Seen(f.visited, m)
    {
      if k != j && Seen(visited, k) {
        assert forall m :: m in g[right[k]] ==> Seen(visited, m);
      }
    }
    MidwayNext(g, ret, right, v0, visited, f.visited, curr, c, V, L);
  }

  /** It has succeeded, or gone out of bounds. */
  lemma EndedTaken(g: Edges, ret: seq<int>, right: seq<int>, v0: seq<bool>, visited: seq<bool>, f: Found, curr: int,
      c: int, V: set<int>, L: set<int>)
    requires Midway(g, ret, right, v0, visited, curr, c, V, L) && c < |g[curr]| && (f.Found? ==> f.ok)
    requires 0 <= g[curr][c] < |g| && !visited[g[curr][c]] && g[curr][c] < |right|
    requires right[g[curr][c]] != -1 && 0 <= right[g[curr][c]] < |g|
    requires var j := g[curr][c]; Ended(g, ret, right, visited[j := true], f, right[j], V, L)
    ensures var j := g[curr][c];
      f.Found? ==>
        && |f.ret| == |g| && |f.right| == |right|
        && Ended(g, ret, right, v0, Found(true, f.ret[curr := j], f.right[j := curr], f.visited), curr, V, L)
    ensures f.Fault? ==> Ended(g, ret, right, v0, f, curr, V, L)
  {
    hide Augmented, Sound, Explored, Paired;
    var j := g[curr][c];
    var v := visited[j := true];
    if f.Found? {
      SoundTake(g, f.ret, f.visited, curr, c);
      TakeVacated(g, ret, right, v0, v, f.ret, f.right, curr, j, V, L);
    }
  }

  // ---- maximality -------------------------------------------------------------------

  /** The matching between two left nodes: unmatched ones are all in `L`. */
  ghost predicate Progress(g: Edges, ret: seq<int>, right: seq<int>, i: int, V: set<int>, L: set<int>) {
    && 0 <= i <= |g| && Paired(g, ret, right) && Frozen(g, right, V, L)
    && (forall l :: i <= l < |g| ==> ret[l] == -1)
    && (forall l :: l in L ==> l < i)
    && (forall l :: 0 <= l < i && ret[l] == -1 ==> l in L)
  }

  /** No matching beats one with a certificate: inside `L` there is room only for `V`,
      and outside `L` every node is matched already. */
  lemma Maximum(g: Edges, ret: seq<int>, right: seq<int>, V: set<int>, L: set<int>, m: seq<int>)
    requires Progress(g, ret, right, |g|, V, L) && IsMatching(g, m)
    ensures |MatchedNodes(m)| <= |MatchedNodes(ret)|
  {
    var M, N := MatchedNodes(m), MatchedNodes(ret);
    InsideAtMost(g, right, V, L, m);
    InsideAtLeast(g, ret, right, V, L);
    assert |M - L| <= |N - L| by {
      InjectionBound(M - L, N - L, l => l);
    }
    SplitSize(M, L);
    SplitSize(N, L);
  }

  lemma SplitSize(M: set<int>, L: set<int>)
    ensures |M| == |M * L| + |M - L|
  {
    assert M == M * L + (M - L);
  }

  /** Within `L`, any matching uses only right nodes of `V`. */
  lemma InsideAtMost(g: Edges, right: seq<int>, V: set<int>, L: set<int>, m: seq<int>)
    requires Frozen(g, right, V, L) && IsMatching(g, m)
    ensures |MatchedNodes(m) * L| <= |V|
  {
    var f := (l: int) => if 0 <= l < |m| then m[l] else 0;
    var A := MatchedNodes(m) * L;
    forall l | l in A ensures f(l) in V {
      assert m[l] in g[l];
    }
    forall k, l | k in A && l in A && k != l ensures f(k) != f(l) {
      if k < l { assert m[k] != m[l]; } else { assert m[l] != m[k]; }
    }
    InjectionBound(A, V, f);
  }

  /** Within `L`, the matching at hand uses all of `V`. */
  lemma InsideAtLeast(g: Edges, ret: seq<int>, right: seq<int>, V: set<int>, L: set<int>)
    requires Paired(g, ret, right) && Frozen(g, right, V, L)
    ensures |V| <= |MatchedNodes(ret) * L|
  {
    var f := (j: int) => if 0 <= j < |right| then right[j] else 0;
    var B := MatchedNodes(ret) * L;
    forall j | j in V ensures f(j) in B {
      assert ret[right[j]] == j;
    }
    forall j, k | j in V && k in V && j != k ensures f(j) != f(k) {
      assert ret[right[j]] == j && ret[right[k]] == k;
    }
    InjectionBound(V, B, f);
  }

  lemma PairedMatching(g: Edges, ret: seq<int>, right: seq<int>)
    requires Paired(g, ret, right)
    ensures IsMatching(g, ret)
  {
  }

  /** A failed search adds what it has seen to the certificate. */
  lemma Fail(g: Edges, ret: seq<int>, right: seq<int>, i: int, V: set<int>, L: set<int>, v: seq<bool>, w: seq<bool>)
    returns (V1: set<int>, L1: set<int>)
    requires Progress(g, ret, right, i, V, L) && i < |g| && (forall j :: !Seen(v, j))
    requires Explored(g, right, v, w) && (forall j :: j in g[i] ==> Seen(w, j)) && (forall j :: j in V ==> j < |w|)
    ensures Progress(g, ret, right, i + 1, V1, L1) && forall j :: j in V1 ==> j < |w|
  {
    V1 := V + set j | 0 <= j < |w| && Seen(w, j);
    L1 := L + {i} + set j | 0 <= j < |w| && Seen(w, j) && j < |right| :: right[j];
    forall l | l in L1 ensures 0 <= l < |g| && l < i + 1 && forall j :: j in g[l] ==> j in V1 {
      if l !in L && l != i {
        var j :| Seen(w, j) && j < |right| && right[j] == l;
        assert !Seen(v, j);
      }
    }
    forall j | j in V1 ensures 0 <= j < |right| && right[j] != -1 && right[j] in L1 {
      if j !in V {
        assert Seen(w, j) && !Seen(v, j);
      }
    }
  }

  lemma Succeed(g: Edges, ret0: seq<int>, right0: seq<int>, v0: seq<bool>, ret: seq<int>, right: seq<int>,
                i: int, V: set<int>, L: set<int>)
    requires Progress(g, ret0, right0, i, V, L) && i < |g|
    requires Augmented(g, ret0, right0, v0, ret, right, i, V)
    ensures Progress(g, ret, right, i + 1, V, L)
  {
    assert Vacated(right, ret0[i]) == right;
  }

  /** Unmatched nodes have no edge beyond `visited`. */
  lemma UnmatchedWhole(g: Edges, ret: seq<int>, right: seq<int>, V: set<int>, L: set<int>)
    requires Progress(g, ret, right, |g|, V, L) && Sound(g, ret) && forall j :: j in V ==> j < |g|
    ensures IsMatching(InRange(g), ret) && Covers(g, ret)
  {
    PairedMatching(g, ret, right);
    forall l | 0 <= l < |g| && ret[l] == -1 ensures InRange(g)[l] == g[l] {
      forall k | 0 <= k < |g[l]| ensures g[l][k] < |g| {
        assert l in L && g[l][k] in g[l];
      }
      CutWhole(g[l], |g|);
    }
  }

  /** What holds between two searches. */
  ghost predicate Between(g: Edges, ret: seq<int>, right: seq<int>, i: int, V: set<int>, L: set<int>) {
    && Progress(g, ret, right, i, V, L) && Sound(g, ret) && Within(g, |right|) && forall j :: j in V ==> j < |g|
  }

  lemma Begun(g: Edges, ret: seq<int>, right: seq<int>)
    requires ret == seq(|g|, _ => -1) && right == seq(Width(g), _ => -1) && NonNegative(g)
    ensures Between(g, ret, right, 0, {}, {}) && Searchable(g, ret, right, seq(|g|, _ => false))
  {
  }

  lemma BetweenMidway(g: Edges, ret: seq<int>, right: seq<int>, i: int, V: set<int>, L: set<int>)
    requires Between(g, ret, right, i, V, L) && i < |g|
    ensures var v := seq(|g|, _ => false); Midway(g, ret, right, v, v, i, 0, V, L)
  {
    hide Paired, Sound, Frozen;
  }

  /** One search on, with a larger certificate if it failed. */
  lemma BetweenNext(g: Edges, ret: seq<int>, right: seq<int>, i: int, V: set<int>, L: set<int>, f: Found)
    returns (V1: set<int>, L1: set<int>)
    requires Between(g, ret, right, i, V, L) && i < |g| && f.Found?
    requires Ended(g, ret, right, seq(|g|, _ => false), f, i, V, L)
    ensures Between(g, f.ret, f.right, i + 1, V1, L1)
  {
    hide Paired, Frozen, Sound, Augmented, Explored, Progress;
    V1, L1 := V, L;
    if f.ok {
      ProgressIs(g, ret, right, i, V, L);
      Succeed(g, ret, right, seq(|g|, _ => false), f.ret, f.right, i, V, L);
    } else {
      V1, L1 := Fail(g, ret, right, i, V, L, seq(|g|, _ => false), f.visited);
    }
  }

  lemma ProgressIs(g: Edges, ret: seq<int>, right: seq<int>, i: int, V: set<int>, L: set<int>)
    requires Progress(g, ret, right, i, V, L)
    ensures 0 <= i <= |g|
  {
  }

  lemma BetweenEnd(g: Edges, ret: seq<int>, right: seq<int>, V: set<int>, L: set<int>)
    requires Between(g, ret, right, |g|, V, L)
    ensures Progress(g, ret, right, |g|, V, L) && Paired(g, ret, right)
    ensures IsMatching(InRange(g), ret) && Covers(g, ret)
  {
    UnmatchedWhole(g, ret, right, V, L);
  }

  /** `Module::bipartite_match`: a maximum matching.  It goes out of bounds only if some edge
      lies beyond `visited`, and does so whenever the edges before the first such edge of
      each node have no matching that covers all nodes with such an edge. */
  method BipartiteMatch(g: Edges) returns (r: Outcome)
    ensures r.InvalidArgument? <==> exists j :: Uses(g, j) && j < 0
    ensures !r.InvalidArgument? ==> NonNegative(g) && r == Match(g)
    ensures r.OutOfBounds? ==> exists j :: Uses(g, j) && j >= |g|
    ensures r.Matched? ==> IsMatching(InRange(g), r.value) && Covers(g, r.value)
    ensures (forall j :: Uses(g, j) ==> j >= 0) && (forall m :: IsMatching(InRange(g), m) ==> !Covers(g, m)) ==>
      r.OutOfBounds?
    ensures r.Matched? ==>
      && IsMatching(g, r.value)
      && forall m :: IsMatching(g, m) ==> |MatchedNodes(m)| <= |MatchedNodes(r.value)|
  {
    for i := 0 to |g|
      invariant forall l, k :: 0 <= l < i && 0 <= k < |g[l]| ==> 0 <= g[l][k]
    {
      for k := 0 to |g[i]|
        invariant forall m :: 0 <= m < k ==> 0 <= g[i][m]
      {
        if g[i][k] < 0 {
          assert Uses(g, g[i][k]);
          return InvalidArgument;
        }
      }
    }
    var m := new Matcher(g);
    ghost var V: set<int>, L: set<int> := {}, {};
    Begun(g, m.ret, m.right);
    for i := 0 to |g|
      invariant m.graph == g && Between(g, m.ret, m.right, i, V, L)
      invariant Searchable(g, m.ret, m.right, seq(|g|, _ => false)) && Match(g) == Searches(g, m.ret, m.right, i)
    {
      m.visited := seq(|g|, _ => false);
      ghost var ret, right, visited := m.ret, m.right, m.visited;
      BetweenMidway(g, ret, right, i, V, L);
      SearchKeeps(g, ret, right, visited, visited, i, 0, V, L);
      var ok, fault := m.Dfs(i);
      if fault {
        return OutOfBounds;
      }
      V, L := BetweenNext(g, ret, right, i, V, L, Found(ok, m.ret, m.right, m.visited));
    }
    BetweenEnd(g, m.ret, m.right, V, L);
    PairedMatching(g, m.ret, m.right);
    forall n | IsMatching(g, n) ensures |MatchedNodes(n)| <= |MatchedNodes(m.ret)| {
      Maximum(g, m.ret, m.right, V, L, n);
    }
    return Matched(m.ret);
  }

  /** So it does when some node's first edge lies beyond `visited`. */
  lemma FirstBeyond(g: Edges, l: int, m: seq<int>)
    requires 0 <= l < |g| && |g[l]| > 0 && g[l][0] >= |g| && IsMatching(InRange(g), m)
    ensures !Covers(g, m)
  {
    assert InRange(g)[l] == [];
  }

  /** Node 0 has only right node 1, which exists as far as the edges say; the search
      accesses `visited` out of bounds all the same. */
  method OutOfBoundsReached() returns (r: Outcome)
    ensures IsMatching([[1]], [1]) && r.OutOfBounds?
  {
    var g := [[1]];
    assert g[0][0] == 1;
    forall m | IsMatching(InRange(g), m) ensures !Covers(g, m) {
      FirstBeyond(g, 0, m);
    }
    r := BipartiteMatch(g);
  }

  /** In between it depends on the order of a row.  In both graphs the edges in range are the
      same, and a matching by them covers row 0, the only one with an edge beyond `visited`. */
  lemma OrderMatters()
    ensures var g, h := [[0, 9], [0, 1]], [[0, 9], [1, 0]];
      && InRange(g) == [[0], [0, 1]] && InRange(h) == [[0], [1, 0]]
      && IsMatching(InRange(g), [0, 1]) && IsMatching(InRange(h), [0, 1])
      && Covers(g, [0, 1]) && Covers(h, [0, 1])
  {
    CutPairs();
    var m := [0, 1];
    assert 0 in [0] && 1 in [0, 1] && 1 in [1, 0];
  }

  lemma CutPairs()
    ensures Cut([0, 9], 2) == [0] && Cut([0, 1], 2) == [0, 1] && Cut([1, 0], 2) == [1, 0]
  {
    assert [0, 9][1..] == [9] && [0, 1][1..] == [1] && [1, 0][1..] == [0];
    assert Cut([1], 2) == [1] && Cut([0], 2) == [0] && Cut([9], 2) == [];
  }

  lemma WidthTen(g: Edges)
    requires g == [[0, 9], [0, 1]] || g == [[0, 9], [1, 0]]
    ensures NonNegative(g) && Width(g) == 10
  {
    assert g[..1] == [[0, 9]] && [[0, 9]][..0] == [] && g[0] == [0, 9];
    assert [0, 9][..1] == [0] && [0][..0] == [] && [0, 1][..1] == [0] && [1, 0][..1] == [1] && [1][..0] == [];
    assert RowWidth([0]) == 1 && RowWidth([1]) == 2 && RowWidth([0, 9]) == 10;
    assert RowWidth(g[1]) == 2 && Width([[0, 9]]) == 10;
  }

  /** Row 1 begins with what row 0 has taken, and row 0 is searched again. */
  lemma TakenFirst()
    ensures var g := [[0, 9], [0, 1]]; NonNegative(g) && Match(g) == OutOfBounds
  {
    var g := [[0, 9], [0, 1]];
    WidthTen(g);
    FirstRow(g);
    var ret, right, none := [0, -1], seq(10, _ => -1)[0 := 0], seq(2, _ => false);
    SearchTakes(g, ret, right, none, 1, 0);
    SearchRound(g, ret, right, none[0 := true], 0, 0);
    SearchRound(g, ret, right, none[0 := true], 0, 1);
  }

  /** Row 1 begins with what is free. */
  lemma FreeFirst()
    ensures var g := [[0, 9], [1, 0]]; NonNegative(g) && Match(g) == Matched([0, 1])
  {
    var g := [[0, 9], [1, 0]];
    WidthTen(g);
    FirstRow(g);
    var ret, right, none := [0, -1], seq(10, _ => -1)[0 := 0], seq(2, _ => false);
    SearchRound(g, ret, right, none, 1, 0);
    assert ret[1 := 1] == [0, 1];
  }

  method OrderRuns() returns (r: Outcome, s: Outcome)
    ensures r.OutOfBounds? && s == Matched([0, 1])
  {
    hide Match, NonNegative, InRange, IsMatching, Covers;
    TakenFirst();
    FreeFirst();
    NoNegative([[0, 9], [0, 1]]);
    NoNegative([[0, 9], [1, 0]]);
    r := BipartiteMatch([[0, 9], [0, 1]]);
    s := BipartiteMatch([[0, 9], [1, 0]]);
  }

  lemma NoNegative(g: Edges)
    requires NonNegative(g)
    ensures forall j :: Uses(g, j) ==> j >= 0
  {
  }

  /** The search from row 0 takes right node 0. */
  lemma FirstRow(g: Edges)
    requires |g| == 2 && g[0] == [0, 9] && NonNegative(g) && Width(g) == 10
    ensures var ret, right := [0, -1], seq(10, _ => -1)[0 := 0];
      Searchable(g, ret, right, seq(2, _ => false)) && Match(g) == Searches(g, ret, right, 1)
  {
    var ret0, right0, none := seq(2, _ => -1), seq(10, _ => -1), seq(2, _ => false);
    assert Searchable(g, ret0, right0, none);
    SearchRound(g, ret0, right0, none, 0, 0);
    assert ret0[0 := 0] == [0, -1];
  }
}
