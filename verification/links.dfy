// Doubly linked lists and the bucket chains made of them, as links between addresses.

module Links {
  import opened Base

  /** The address of an item; 0 is NULL. */
  type Ptr = nat

  const NULL: Ptr := 0

  type Link = map<Ptr, Ptr>

  function At(s: seq<Ptr>, k: int): Ptr {
    if 0 <= k < |s| then s[k] else NULL
  }

  ghost predicate Distinct(s: seq<Ptr>) {
    forall j, k :: 0 <= j < k < |s| ==> s[j] != s[k]
  }

  /** `head` starts a list that runs through exactly `s`, forwards and backwards. */
  ghost predicate Linked(head: Ptr, next: Link, prev: Link, s: seq<Ptr>) {
    && head == At(s, 0) && Distinct(s)
    && forall k :: 0 <= k < |s| ==>
         && s[k] != NULL && s[k] in next && s[k] in prev
         && next[s[k]] == At(s, k + 1) && prev[s[k]] == At(s, k - 1)
  }

  lemma LinkedFrame(head: Ptr, n: Link, p: Link, n1: Link, p1: Link, s: seq<Ptr>)
    requires Linked(head, n, p, s)
    requires forall x :: x in s && x in n && x in p ==> x in n1 && x in p1 && n1[x] == n[x] && p1[x] == p[x]
    ensures Linked(head, n1, p1, s)
  {
  }

  /** `prev` after the head `h` of a list got the neighbour `x` in front of it. */
  function Behind(p: Link, h: Ptr, x: Ptr): Link {
    if h != NULL then p[x := NULL][h := x] else p[x := NULL]
  }

  /** What `Linked` asks of item `k`. */
  ghost predicate LinkedAt(next: Link, prev: Link, s: seq<Ptr>, k: nat)
    requires k < |s|
  {
    && s[k] != NULL && s[k] in next && s[k] in prev
    && next[s[k]] == At(s, k + 1) && prev[s[k]] == At(s, k - 1)
  }

  lemma LinkedAll(head: Ptr, next: Link, prev: Link, s: seq<Ptr>)
    requires head == At(s, 0) && Distinct(s) && forall k: nat :: k < |s| ==> LinkedAt(next, prev, s, k)
    ensures Linked(head, next, prev, s)
  {
    hide At;
    forall k | 0 <= k < |s|
      ensures s[k] != NULL && s[k] in next && s[k] in prev
      ensures next[s[k]] == At(s, k + 1) && prev[s[k]] == At(s, k - 1)
    {
      assert LinkedAt(next, prev, s, k);
    }
  }

  lemma PushFront(h: Ptr, n: Link, p: Link, s: seq<Ptr>, x: Ptr)
    requires Linked(h, n, p, s) && x !in s && x != NULL
    ensures Linked(x, n[x := h], Behind(p, h, x), [x] + s)
  {
    var t, n1, p1 := [x] + s, n[x := h], Behind(p, h, x);
    FrontDistinct(h, n, p, s, x);
    hide Linked, LinkedAt, Behind, Distinct;
    forall k: nat | k < |t| ensures LinkedAt(n1, p1, t, k) {
      FrontAt(h, n, p, s, x, k);
    }
    LinkedAll(x, n1, p1, t);
  }

  lemma FrontDistinct(h: Ptr, n: Link, p: Link, s: seq<Ptr>, x: Ptr)
    requires Linked(h, n, p, s) && x !in s
    ensures Distinct([x] + s)
  {
    hide At;
    assert forall k :: 0 < k < |s| + 1 ==> ([x] + s)[k] == s[k - 1];
  }

  lemma FrontAt(h: Ptr, n: Link, p: Link, s: seq<Ptr>, x: Ptr, k: nat)
    requires Linked(h, n, p, s) && x !in s && x != NULL && k < |s| + 1
    ensures LinkedAt(n[x := h], Behind(p, h, x), [x] + s, k)
  {
    if k > 0 {
      assert ([x] + s)[k] == s[k - 1];
      assert n[s[k - 1]] == At(s, k) && p[s[k - 1]] == At(s, k - 2);
    }
  }

  lemma PushBack(h: Ptr, n: Link, p: Link, s: seq<Ptr>, x: Ptr)
    requires Linked(h, n, p, s) && s != [] && x !in s && x != NULL
    ensures Linked(h, n[x := NULL][s[|s| - 1] := x], p[x := s[|s| - 1]], s + [x])
  {
    var t, n1, p1 := s + [x], n[x := NULL][s[|s| - 1] := x], p[x := s[|s| - 1]];
    forall k | 0 <= k < |t|
      ensures t[k] != NULL && t[k] in n1 && t[k] in p1 && n1[t[k]] == At(t, k + 1) && p1[t[k]] == At(t, k - 1)
    {
      if k < |s| {
        assert n[s[k]] == At(s, k + 1) && p[s[k]] == At(s, k - 1);
        assert k < |s| - 1 ==> s[k] != s[|s| - 1];
      }
    }
  }

  function Without(s: seq<Ptr>, i: nat): seq<Ptr>
    requires i < |s|
  {
    s[..i] + s[i + 1..]
  }

  /** The links after `x` has been bridged over: its neighbours point at each other. */
  function Bridged(link: Link, back: Link, x: Ptr): Link
    requires x in link && x in back
  {
    if back[x] != NULL then link[back[x] := link[x]] else link
  }

  lemma Remove(h: Ptr, n: Link, p: Link, s: seq<Ptr>, i: nat)
    requires Linked(h, n, p, s) && i < |s|
    ensures Linked(if h == s[i] then n[s[i]] else h, Bridged(n, p, s[i]), Bridged(p, n, s[i]), Without(s, i))
  {
    RemoveHead(h, n, p, s, i);
    LinkedDistinct(h, n, p, s);
    hide Bridged, Without, At, Linked, LinkedAt, Distinct;
    var t, n1, p1 := Without(s, i), Bridged(n, p, s[i]), Bridged(p, n, s[i]);
    WithoutDistinct(s, i);
    forall k: nat | k < |t| ensures LinkedAt(n1, p1, t, k) {
      RemovedAt(h, n, p, s, i, k);
    }
    LinkedAll(if h == s[i] then n[s[i]] else h, n1, p1, t);
  }

  lemma LinkedDistinct(h: Ptr, n: Link, p: Link, s: seq<Ptr>)
    requires Linked(h, n, p, s)
    ensures Distinct(s) && forall x :: x in s ==> x in n && x in p
  {
  }

  lemma RemovedAt(h: Ptr, n: Link, p: Link, s: seq<Ptr>, i: nat, k: nat)
    requires Linked(h, n, p, s) && i < |s| && k < |Without(s, i)| && s[i] in n && s[i] in p
    ensures LinkedAt(Bridged(n, p, s[i]), Bridged(p, n, s[i]), Without(s, i), k)
  {
    hide Bridged, Without, At, Linked, Distinct;
    WithoutIs(s, i);
    RemoveNext(h, n, p, s, i, if k < i then k else k + 1);
    WithoutAt(s, i, k);
  }

  lemma RemoveHead(h: Ptr, n: Link, p: Link, s: seq<Ptr>, i: nat)
    requires Linked(h, n, p, s) && i < |s|
    ensures (if h == s[i] then n[s[i]] else h) == At(Without(s, i), 0)
  {
    hide Without;
    WithoutIs(s, i);
    assert h == s[0] && n[s[i]] == At(s, i + 1);
  }

  lemma WithoutIs(s: seq<Ptr>, i: nat)
    requires i < |s|
    ensures |Without(s, i)| == |s| - 1
    ensures forall k :: 0 <= k < |s| - 1 ==> Without(s, i)[k] == s[if k < i then k else k + 1]
  {
  }

  /** The neighbours that item `k` of the shorter list had in the longer one. */
  lemma WithoutAt(s: seq<Ptr>, i: nat, k: nat)
    requires i < |s| && k < |s| - 1
    ensures var m := if k < i then k else k + 1;
      && At(Without(s, i), k + 1) == At(s, if m + 1 == i then m + 2 else m + 1)
      && At(Without(s, i), k - 1) == At(s, if m - 1 == i then m - 2 else m - 1)
  {
  }

  lemma AtIs(s: seq<Ptr>, j: int, m: nat)
    requires Distinct(s) && m < |s| && s[m] != NULL
    ensures At(s, j) == s[m] <==> j == m
  {
  }

  /** The links of item `m` once item `i` has been bridged over. */
  lemma RemoveNext(h: Ptr, n: Link, p: Link, s: seq<Ptr>, i: nat, m: nat)
    requires Linked(h, n, p, s) && i < |s| && m < |s| && m != i
    ensures var n1, p1 := Bridged(n, p, s[i]), Bridged(p, n, s[i]);
      && s[m] != NULL && s[m] in n1 && s[m] in p1
      && n1[s[m]] == At(s, if m + 1 == i then m + 2 else m + 1)
      && p1[s[m]] == At(s, if m - 1 == i then m - 2 else m - 1)
  {
    hide At;
    AtIs(s, i - 1, m);
    AtIs(s, i + 1, m);
  }

  lemma WithoutDistinct(s: seq<Ptr>, i: nat)
    requires Distinct(s) && i < |s|
    ensures Distinct(Without(s, i))
    ensures forall x :: x in Without(s, i) <==> x in s && x != s[i]
  {
    var t := Without(s, i);
    assert forall k :: 0 <= k < |t| ==> t[k] == s[if k < i then k else k + 1];
    forall x | x in s && x != s[i] ensures x in t {
      var m :| 0 <= m < |s| && s[m] == x;
      assert t[if m < i then m else m - 1] == x;
    }
  }

  // ---- buckets -------------------------------------------------------------------------

  datatype Bucket = Bucket(hhHead: Ptr, count: nat, expandMult: nat)

  /** Each bucket heads its chain and counts it. */
  ghost predicate Chained(buckets: seq<Bucket>, n: Link, p: Link, chains: seq<seq<Ptr>>) {
    && |buckets| == |chains|
    && forall b :: 0 <= b < |chains| ==> Linked(buckets[b].hhHead, n, p, chains[b]) && buckets[b].count == |chains[b]|
  }

  ghost predicate InChain(chains: seq<seq<Ptr>>, b: int, x: Ptr) {
    0 <= b < |chains| && x in chains[b]
  }

  /** The chains file exactly the items `D`, each under its hash value. */
  ghost predicate Filed(chains: seq<seq<Ptr>>, hashv: map<Ptr, nat>, D: set<Ptr>) {
    && |chains| > 0
    && forall b, x :: InChain(chains, b, x) <==> x in D && x in hashv && b == hashv[x] % |chains|
  }

  lemma InFront(chains: seq<seq<Ptr>>, b: nat, x: Ptr, c: int, y: Ptr)
    requires b < |chains|
    ensures InChain(chains[b := [x] + chains[b]], c, y) <==> InChain(chains, c, y) || (c == b && y == x)
  {
  }

  /** An item is put at the front of the chain it belongs to. */
  lemma FileFront(buckets: seq<Bucket>, n: Link, p: Link, chains: seq<seq<Ptr>>, hashv: map<Ptr, nat>, D: set<Ptr>,
      x: Ptr, em: nat)
    requires Chained(buckets, n, p, chains) && Filed(chains, hashv, D) && x in hashv && x !in D && x != NULL
    ensures var b := hashv[x] % |chains|;
      && Chained(buckets[b := Bucket(x, buckets[b].count + 1, em)], n[x := buckets[b].hhHead],
        Behind(p, buckets[b].hhHead, x),
                 chains[b := [x] + chains[b]])
      && Filed(chains[b := [x] + chains[b]], hashv, D + {x})
  {
    hide Linked;
    var b := hashv[x] % |chains|;
    var h := buckets[b].hhHead;
    var chains1, buckets1 := chains[b := [x] + chains[b]], buckets[b := Bucket(x, buckets[b].count + 1, em)];
    forall c | 0 <= c < |chains|
      ensures Linked(buckets1[c].hhHead, n[x := h], Behind(p, h, x), chains1[c]) && buckets1[c].count == |chains1[c]|
    {
      NotFiled(chains, hashv, D, x, c);
      if c == b {
        PushFront(h, n, p, chains[b], x);
      } else {
        HeadElsewhere(buckets, n, p, chains, hashv, D, b, c);
        LinkedFrame(buckets[c].hhHead, n, p, n[x := h], Behind(p, h, x), chains[c]);
      }
    }
    forall c, y ensures InChain(chains1, c, y) <==> y in D + {x} && y in hashv && c == hashv[y] % |chains| {
      InFront(chains, b, x, c, y);
    }
  }

  lemma NotFiled(chains: seq<seq<Ptr>>, hashv: map<Ptr, nat>, D: set<Ptr>, x: Ptr, c: nat)
    requires Filed(chains, hashv, D) && x !in D && c < |chains|
    ensures x !in chains[c]
  {
    assert !InChain(chains, c, x);
  }

  /** The head of one chain is on no other. */
  lemma HeadElsewhere(buckets: seq<Bucket>, n: Link, p: Link, chains: seq<seq<Ptr>>, hashv: map<Ptr, nat>,
      D: set<Ptr>, b: nat, c: nat)
    requires Chained(buckets, n, p, chains) && Filed(chains, hashv, D) && b < |chains| && c < |chains| && b != c
    ensures buckets[b].hhHead == NULL || buckets[b].hhHead !in chains[c]
  {
    assert Linked(buckets[b].hhHead, n, p, chains[b]);
    if chains[b] != [] {
      assert InChain(chains, b, chains[b][0]);
      assert !InChain(chains, c, chains[b][0]);
    }
  }

  /** An item is taken out of the chain it belongs to. */
  lemma Unfile(buckets: seq<Bucket>, n: Link, p: Link, chains: seq<seq<Ptr>>, hashv: map<Ptr, nat>, D: set<Ptr>,
      x: Ptr, i: nat)
    requires Chained(buckets, n, p, chains) && Filed(chains, hashv, D) && x in hashv
    requires var b := hashv[x] % |chains|; i < |chains[b]| && chains[b][i] == x
    requires x in n && x in p
    ensures var b := hashv[x] % |chains|;
      var head := if buckets[b].hhHead == x then n[x] else buckets[b].hhHead;
      && buckets[b].count > 0
      && Chained(buckets[b := Bucket(head, buckets[b].count - 1, buckets[b].expandMult)], Bridged(n, p, x),
        Bridged(p, n, x),
                 chains[b := Without(chains[b], i)])
      && Filed(chains[b := Without(chains[b], i)], hashv, D - {x})
  {
    hide Linked;
    var b := hashv[x] % |chains|;
    var head := if buckets[b].hhHead == x then n[x] else buckets[b].hhHead;
    var chains1 := chains[b := Without(chains[b], i)];
    var buckets1 := buckets[b := Bucket(head, |chains[b]| - 1, buckets[b].expandMult)];
    forall c | 0 <= c < |chains|
      ensures Linked(buckets1[c].hhHead, Bridged(n, p, x), Bridged(p, n, x), chains1[c])
      ensures buckets1[c].count == |chains1[c]|
    {
      if c == b {
        Remove(buckets[b].hhHead, n, p, chains[b], i);
      } else {
        NeighboursElsewhere(buckets, n, p, chains, hashv, D, b, i, c);
        LinkedFrame(buckets[c].hhHead, n, p, Bridged(n, p, x), Bridged(p, n, x), chains[c]);
      }
    }
    ChainDistinct(buckets[b].hhHead, n, p, chains[b]);
    WithoutDistinct(chains[b], i);
    forall c, y ensures InChain(chains1, c, y) <==> y in D - {x} && y in hashv && c == hashv[y] % |chains| {
      assert InChain(chains, c, y) <==> y in D && y in hashv && c == hashv[y] % |chains|;
    }
  }

  lemma ChainDistinct(h: Ptr, n: Link, p: Link, s: seq<Ptr>)
    requires Linked(h, n, p, s)
    ensures Distinct(s)
  {
  }

  /** The neighbours of an item are on its own chain. */
  lemma NeighboursElsewhere(buckets: seq<Bucket>, n: Link, p: Link, chains: seq<seq<Ptr>>, hashv: map<Ptr, nat>,
      D: set<Ptr>,
                            b: nat, i: nat, c: nat)
    requires Chained(buckets, n, p, chains) && Filed(chains, hashv, D) && b < |chains| && c < |chains| && b != c
    requires i < |chains[b]|
    ensures var x := chains[b][i]; x in n && x in p
    ensures var x := chains[b][i]; (n[x] == NULL || n[x] !in chains[c]) && (p[x] == NULL || p[x] !in chains[c])
  {
    assert Linked(buckets[b].hhHead, n, p, chains[b]);
    forall k: nat | k < |chains[b]| ensures chains[b][k] !in chains[c] {
      assert InChain(chains, b, chains[b][k]);
      assert !InChain(chains, c, chains[b][k]);
    }
  }
}
