// The hash table that holds an object's members: chains by hash value, list by insertion.

module HashTables {
  import opened Base
  import opened Links

  type Key = string

  const HASH_INITIAL_NUM_BUCKETS: nat := 32
  const HASH_INITIAL_NUM_BUCKETS_LOG2: nat := 5
  const HASH_BKT_CAPACITY_THRESH: nat := 10

  // ---- masks and shifts ----------------------------------------------------------------

  function Pow2(k: nat): (r: nat)
    ensures r > 0
  {
    if k == 0 then 1 else 2 * Pow2(k - 1)
  }

  /** Bitwise and. */
  function And(x: nat, y: nat): nat {
    if x == 0 || y == 0 then 0 else 2 * And(x / 2, y / 2) + (x % 2) * (y % 2)
  }

  function Shr(x: nat, k: nat): nat {
    if k == 0 then x else Shr(x / 2, k - 1)
  }

  lemma {:induction false} MaskIsRemainder(x: nat, k: nat)
    ensures And(x, Pow2(k) - 1) == x % Pow2(k)
  {
    if k > 0 {
      MaskIsRemainder(x / 2, k - 1);
      MaskStep(x, k);
    } else {
      assert x % 1 == 0;
    }
  }

  lemma MaskStep(x: nat, k: nat)
    requires k > 0 && And(x / 2, Pow2(k - 1) - 1) == (x / 2) % Pow2(k - 1)
    ensures And(x, Pow2(k) - 1) == x % Pow2(k)
  {
    hide And;
    AndStep(x, Pow2(k - 1));
    HalfRemainder(x, Pow2(k - 1));
  }

  lemma {:induction false} ShiftIsQuotient(x: nat, k: nat)
    ensures Shr(x, k) == x / Pow2(k)
  {
    if k > 0 {
      ShiftIsQuotient(x / 2, k - 1);
      HalfRemainder(x, Pow2(k - 1));
    }
  }

  lemma AndStep(x: nat, m: nat)
    requires m > 0
    ensures And(x, 2 * m - 1) == 2 * And(x / 2, m - 1) + x % 2
  {
    assert (2 * m - 1) / 2 == m - 1 && (2 * m - 1) % 2 == 1;
  }

  lemma HalfRemainder(x: nat, m: nat)
    requires m > 0
    ensures x % (2 * m) == 2 * ((x / 2) % m) + x % 2 && x / (2 * m) == (x / 2) / m
  {
    var h := x / 2;
    var q, r := h / m, h % m;
    assert h == q * m + r;
    assert x == 2 * h + x % 2;
    assert x == q * (2 * m) + (2 * r + x % 2) by {
      assert 2 * (q * m) == q * (2 * m);
    }
    RemainderIs(x, 2 * m, q, 2 * r + x % 2);
  }

  lemma RemainderIs(x: nat, m: nat, q: nat, r: nat)
    requires m > 0 && r < m && x == q * m + r
    ensures x % m == r && x / m == q
  {
    var d := x / m - q;
    assert x == (x / m) * m + x % m;
    assert d * m == r - x % m by {
      assert (x / m) * m == d * m + q * m;
    }
    Multiple(d, m);
  }

  lemma Multiple(d: int, m: nat)
    ensures d >= 1 ==> d * m >= m
    ensures d <= -1 ==> d * m <= -(m as int)
  {
  }

  /** HASH_TO_BKT */
  function ToBkt(hashv: nat, numBuckets: nat): nat
    requires numBuckets > 0
  {
    And(hashv, numBuckets - 1)
  }

  /** `q` is `n / b` rounded up. */
  ghost predicate IsCeil(q: nat, n: nat, b: nat) {
    n <= q * b && (q > 0 ==> (q - 1) * b < n)
  }

  lemma CeilMeans(q: nat, n: nat, b: nat)
    requires IsCeil(q, n, b)
    ensures n <= q * b && (q > 0 ==> (q - 1) * b < n)
  {
  }

  lemma CeilIs(n: nat, b: nat)
    requires b > 0
    ensures IsCeil(n / b + if n % b != 0 then 1 else 0, n, b)
  {
    var q := n / b;
    assert n == q * b + n % b;
    assert (q + 1) * b == q * b + b;
    assert q > 0 ==> (q - 1) * b == q * b - b;
  }

  /** The shift and the mask of the expansion round up. */
  lemma IdealIsCeil(n: nat, k: nat)
    ensures IsCeil(Shr(n, k) + if And(n, Pow2(k) - 1) != 0 then 1 else 0, n, Pow2(k))
  {
    hide And, IsCeil, Pow2, Shr;
    MaskIsRemainder(n, k);
    ShiftIsQuotient(n, k);
    CeilIs(n, Pow2(k));
  }

  /** The bucket of a hash value. */
  lemma ToBktIs(hashv: nat, k: nat)
    ensures ToBkt(hashv, Pow2(k)) == hashv % Pow2(k)
    ensures Pow2(0) == 1 && Pow2(k + 1) == 2 * Pow2(k)
  {
    MaskIsRemainder(hashv, k);
  }

  // ---- the quality of an expansion ---------------------------------------------------------

  /** The items that chains hold beyond the ideal length. */
  ghost function Excess(buckets: seq<Bucket>, ideal: nat): nat {
    if buckets == [] then 0
    else Excess(buckets[..|buckets| - 1], ideal) + Over(buckets[|buckets| - 1].count, ideal)
  }

  function Over(count: nat, ideal: nat): nat {
    if count > ideal then count - ideal else 0
  }

  lemma {:induction false} ExcessOne(buckets: seq<Bucket>, b: nat, x: Ptr, em: nat, ideal: nat)
    requires b < |buckets|
    ensures Excess(buckets[b := Bucket(x, buckets[b].count + 1, em)], ideal)
      == Excess(buckets, ideal) + if buckets[b].count + 1 > ideal then 1 else 0
  {
    var last := |buckets| - 1;
    var after := buckets[b := Bucket(x, buckets[b].count + 1, em)];
    if b < last {
      ExcessOne(buckets[..last], b, x, em, ideal);
      assert after[..last] == buckets[..last][b := Bucket(x, buckets[b].count + 1, em)];
    } else {
      assert after[..last] == buckets[..last];
    }
  }

  lemma ExcessIs(buckets: seq<Bucket>, b: Bucket, ideal: nat)
    ensures Excess([], ideal) == 0
    ensures Excess(buckets + [b], ideal) == Excess(buckets, ideal) + if b.count > ideal then b.count - ideal else 0
  {
    assert (buckets + [b])[..|buckets|] == buckets;
  }

  lemma {:induction false} ExcessEmpty(buckets: seq<Bucket>, ideal: nat)
    requires forall b :: 0 <= b < |buckets| ==> buckets[b].count == 0
    ensures Excess(buckets, ideal) == 0
  {
    if buckets != [] {
      ExcessEmpty(buckets[..|buckets| - 1], ideal);
    }
  }

  /** The limit of a chain longer than ideal: as many ideal lengths as its own length asks
      for, but no more than it has non-ideal items. */
  ghost predicate Widened(b: Bucket, ideal: nat) {
    if b.count <= ideal then b.expandMult == 0
    else
      && b.expandMult <= b.count - ideal && (b.expandMult - 1) * ideal < b.count
      && (b.expandMult == b.count - ideal || b.count <= b.expandMult * ideal)
  }

  lemma WidenedMore(count: nat, em: nat, ideal: nat, x: Ptr, y: Ptr)
    requires Widened(Bucket(x, count, em), ideal)
    ensures var em1 := em + if count + 1 > ideal && count + 1 > em * ideal then 1 else 0;
      Widened(Bucket(y, count + 1, em1), ideal)
  {
    assert (em + 1) * ideal == em * ideal + ideal;
  }

  /** So the limit is the smaller of two numbers. */
  lemma WidenedIs(b: Bucket, ideal: nat)
    requires 0 < ideal
    ensures Widened(b, ideal) <==>
      b.expandMult == (var ceil := (b.count + ideal - 1) / ideal;
                       if b.count <= ideal then 0
                       else if b.count - ideal < ceil then b.count - ideal
                       else ceil)
  {
    if b.count <= ideal {
      return;
    }
    var em, ceil := b.expandMult, (b.count + ideal - 1) / ideal;
    CeilBounds(b.count, ideal, ceil);
    if em < ceil {
      Below(em, ceil - 1, ideal);
    } else if em > ceil {
      Below(ceil, em - 1, ideal);
    } else {
      Below(ceil, ceil, ideal);
    }
  }

  lemma CeilBounds(n: nat, d: nat, c: nat)
    requires d > 0 && n > 0 && c == (n + d - 1) / d
    ensures (c - 1) * d < n <= c * d
  {
    assert c * d + (n + d - 1) % d == n + d - 1;
    assert (c - 1) * d == c * d - d;
  }

  lemma Below(a: int, b: int, d: nat)
    requires a <= b
    ensures a * d <= b * d
  {
  }

  ghost predicate AllWidened(buckets: seq<Bucket>, ideal: nat) {
    forall b :: 0 <= b < |buckets| ==> Widened(buckets[b], ideal)
  }

  // ---- moving the items into the new buckets ------------------------------------------------

  ghost function Elements(s: seq<Ptr>): set<Ptr> {
    set x | x in s
  }

  /** The items of the first `i` chains and of the first `k` places of the next one. */
  ghost function Done(D: set<Ptr>, hashv: map<Ptr, nat>, chains: seq<seq<Ptr>>, i: nat, k: nat): set<Ptr>
    requires D <= hashv.Keys && |chains| > 0 && (i < |chains| ==> k <= |chains[i]|)
  {
    set x | x in D && (hashv[x] % |chains| < i || (i < |chains| && hashv[x] % |chains| == i && x in chains[i][..k]))
  }

  lemma DoneNone(D: set<Ptr>, hashv: map<Ptr, nat>, chains: seq<seq<Ptr>>)
    requires D <= hashv.Keys && |chains| > 0
    ensures Done(D, hashv, chains, 0, 0) == {}
  {
  }

  lemma DoneAll(D: set<Ptr>, hashv: map<Ptr, nat>, chains: seq<seq<Ptr>>)
    requires D <= hashv.Keys && |chains| > 0
    ensures Done(D, hashv, chains, |chains|, 0) == D
  {
  }

  lemma DoneChain(D: set<Ptr>, hashv: map<Ptr, nat>, chains: seq<seq<Ptr>>, i: nat)
    requires D <= hashv.Keys && Filed(chains, hashv, D) && i < |chains|
    ensures Done(D, hashv, chains, i, |chains[i]|) == Done(D, hashv, chains, i + 1, 0)
  {
    assert chains[i][..|chains[i]|] == chains[i];
    forall x | x in D && hashv[x] % |chains| == i ensures x in chains[i] {
      assert InChain(chains, i, x);
    }
  }

  lemma DoneNext(D: set<Ptr>, hashv: map<Ptr, nat>, chains: seq<seq<Ptr>>, i: nat, k: nat)
    requires D <= hashv.Keys && Filed(chains, hashv, D) && i < |chains| && k < |chains[i]| && Links.Distinct(chains[i])
    ensures var x := chains[i][k];
      && x in D && x !in Done(D, hashv, chains, i, k)
      && Done(D, hashv, chains, i, k + 1) == Done(D, hashv, chains, i, k) + {x}
  {
    var x := chains[i][k];
    assert InChain(chains, i, x);
    assert chains[i][..k + 1] == chains[i][..k] + [x];
  }

  /** From place `k` on, a chain is still linked as it was. */
  ghost predicate Ahead(n: Link, chain: seq<Ptr>, k: nat) {
    forall m :: k <= m < |chain| ==> chain[m] in n && n[chain[m]] == At(chain, m + 1)
  }

  lemma LinkedAhead(h: Ptr, n: Link, p: Link, s: seq<Ptr>)
    requires Linked(h, n, p, s)
    ensures Ahead(n, s, 0) && Links.Distinct(s) && h == At(s, 0) && NULL !in s
  {
  }

  /** The chains after `i`, and chain `i` from place `k`, have not been touched. */
  ghost predicate Untouched(n: Link, chains: seq<seq<Ptr>>, i: nat, k: nat) {
    && (i < |chains| ==> Ahead(n, chains[i], k))
    && forall j :: i < j < |chains| ==> Ahead(n, chains[j], 0)
  }

  lemma TouchOne(n: Link, chains: seq<seq<Ptr>>, hashv: map<Ptr, nat>, D: set<Ptr>, i: nat, k: nat, h: Ptr)
    requires Untouched(n, chains, i, k) && Filed(chains, hashv, D) && i < |chains| && k < |chains[i]|
    requires Links.Distinct(chains[i])
    ensures Untouched(n[chains[i][k] := h], chains, i, k + 1)
  {
    var x := chains[i][k];
    assert InChain(chains, i, x);
    forall j | i < j < |chains| ensures Ahead(n[x := h], chains[j], 0) {
      assert !InChain(chains, j, x);
    }
  }

  lemma UntouchedNext(n: Link, chains: seq<seq<Ptr>>, i: nat, k: nat)
    requires Untouched(n, chains, i, k)
    ensures Untouched(n, chains, i + 1, 0)
  {
  }

  lemma AllAhead(buckets: seq<Bucket>, n: Link, p: Link, chains: seq<seq<Ptr>>)
    requires Chained(buckets, n, p, chains)
    ensures Untouched(n, chains, 0, 0) && |buckets| == |chains|
    ensures forall j :: 0 <= j < |chains| ==>
      Links.Distinct(chains[j]) && buckets[j].hhHead == At(chains[j], 0) && NULL !in chains[j]
  {
    forall j | 0 <= j < |chains|
      ensures Ahead(n, chains[j], 0) && Links.Distinct(chains[j]) && buckets[j].hhHead == At(chains[j], 0)
      ensures NULL !in chains[j]
    {
      LinkedAhead(buckets[j].hhHead, n, p, chains[j]);
    }
  }

  /** Nothing is in the new buckets yet. */
  lemma EmptyBuckets(n: Link, p: Link, hashv: map<Ptr, nat>, size: nat, ideal: nat)
    requires size > 0
    ensures var buckets, chains := seq(size, _ => Bucket(NULL, 0, 0)), seq(size, _ => []);
      && Chained(buckets, n, p, chains) && Filed(chains, hashv, {})
      && Excess(buckets, ideal) == 0 && AllWidened(buckets, ideal)
  {
    ExcessEmpty(seq(size, _ => Bucket(NULL, 0, 0)), ideal);
  }

  /** The expansion's counters after one more item has gone to bucket `b`. */
  lemma Counted(buckets: seq<Bucket>, b: nat, x: Ptr, em: nat, ideal: nat)
    requires b < |buckets| && AllWidened(buckets, ideal)
    requires var was := buckets[b];
      em == was.expandMult + if was.count + 1 > ideal && was.count + 1 > was.expandMult * ideal then 1 else 0
    ensures AllWidened(buckets[b := Bucket(x, buckets[b].count + 1, em)], ideal)
    ensures Excess(buckets[b := Bucket(x, buckets[b].count + 1, em)], ideal)
      == Excess(buckets, ideal) + if buckets[b].count + 1 > ideal then 1 else 0
  {
    ExcessOne(buckets, b, x, em, ideal);
    hide Widened, Excess;
    assert Widened(buckets[b], ideal);
    WidenedMore(buckets[b].count, buckets[b].expandMult, ideal, buckets[b].hhHead, x);
  }

  // ---- the contents -----------------------------------------------------------------------

  ghost predicate Keyed(order: seq<Ptr>, keys: map<Ptr, Key>, hashv: map<Ptr, nat>, hash: Key -> nat) {
    && (forall x :: x in order ==> x in keys && x in hashv && hashv[x] == hash(keys[x]))
    && forall i, j :: 0 <= i < j < |order| ==> keys[order[i]] != keys[order[j]]
  }

  /** Keys and items, in the order of insertion. */
  ghost function Entries(order: seq<Ptr>, keys: map<Ptr, Key>): seq<(Key, Ptr)>
    requires forall x :: x in order ==> x in keys
  {
    seq(|order|, i requires 0 <= i < |order| => (keys[order[i]], order[i]))
  }

  lemma EntriesMore(order: seq<Ptr>, keys: map<Ptr, Key>, hashv: map<Ptr, nat>, hash: Key -> nat, x: Ptr, k: Key)
    requires Keyed(order, keys, hashv, hash) && x !in order && forall y :: y in order ==> keys[y] != k
    ensures Keyed(order + [x], keys[x := k], hashv[x := hash(k)], hash)
    ensures Entries(order + [x], keys[x := k]) == Entries(order, keys) + [(k, x)]
  {
    var more, keys1 := order + [x], keys[x := k];
    forall i, j | 0 <= i < j < |more| ensures keys1[more[i]] != keys1[more[j]] {
      assert more[i] == order[i] && more[i] != x;
      if j < |order| {
        assert more[j] == order[j] && more[j] != x;
      }
    }
  }

  lemma EntriesLess(order: seq<Ptr>, keys: map<Ptr, Key>, hashv: map<Ptr, nat>, hash: Key -> nat, i: nat)
    requires Keyed(order, keys, hashv, hash) && Links.Distinct(order) && i < |order|
    ensures Keyed(Without(order, i), keys, hashv, hash)
    ensures Entries(Without(order, i), keys) == Entries(order, keys)[..i] + Entries(order, keys)[i + 1..]
  {
    WithoutDistinct(order, i);
    var less := Without(order, i);
    assert forall m :: 0 <= m < |less| ==> less[m] == order[if m < i then m else m + 1];
    forall j, k | 0 <= j < k < |less| ensures keys[less[j]] != keys[less[k]] {
    }
  }

  // ---- the table ------------------------------------------------------------------------------

  class HashTable {
    const hash: Key -> nat
    var head: Ptr
    var next: Link
    var prev: Link
    var hhNext: Link
    var hhPrev: Link
    var keys: map<Ptr, Key>
    var hashv: map<Ptr, nat>
    var buckets: seq<Bucket>
    var numBuckets: nat
    var log2NumBuckets: nat
    var numItems: nat
    var tail: Ptr
    var idealChainMaxlen: nat
    var nonidealItems: nat
    var ineffExpands: nat
    var noexpand: bool
    ghost var order: seq<Ptr>
    ghost var chains: seq<seq<Ptr>>

    /** The chains file the items of the list by hash value, and the counts agree. */
    ghost predicate Filing()
      reads this
    {
      && numBuckets == Pow2(log2NumBuckets) == |chains|
      && Chained(buckets, hhNext, hhPrev, chains)
      && Elements(order) <= hashv.Keys && NULL !in order
      && Filed(chains, hashv, Elements(order))
      && numItems == |order|
    }

    /** List and chains hold the same items, and without items there is no table. */
    ghost predicate Tabled()
      reads this
    {
      if head == NULL then order == []
      else order != [] && Linked(head, next, prev, order) && tail == order[|order| - 1] && Filing()
    }

    ghost predicate Valid()
      reads this
    {
      Tabled() && Keyed(order, keys, hashv, hash)
    }

    /** The table as an ordered map: keys and items in the order of insertion. */
    ghost function Contents(): seq<(Key, Ptr)>
      requires Valid()
      reads this
    {
      Entries(order, keys)
    }

    /** What that means for the fields: the list from `head` on runs through the items, forwards and
        backwards. */
    lemma ListIs()
      requires Valid()
      ensures head == 0 <==> order == []
      ensures order != [] ==> head == order[0] && tail == order[|order| - 1]
      ensures forall x :: x in order ==> x != 0 && x in next && x in prev
      ensures order != [] ==> prev[head] == 0 && next[tail] == 0
      ensures forall i, j :: 0 <= i < j < |order| && j == i + 1 ==>
        next[order[i]] == order[j] && prev[order[j]] == order[i]
    {
      hide Filing, Linked, Keyed;
      if head != NULL {
        LinkedIs(head, next, prev, order);
      }
    }

    /** The contents are these items, each with its key. */
    lemma ContentsIs()
      requires Valid()
      ensures |Contents()| == |order|
      ensures forall i :: 0 <= i < |order| ==> order[i] in keys && Contents()[i] == (keys[order[i]], order[i])
    {
      hide Filing, Linked, Keyed;
      KeyedItems(order, keys, hashv, hash);
    }

    /** And each has a place in the chain of its key's hash value. */
    lemma FiledIs()
      requires Valid()
      ensures order != [] ==> numBuckets > 0 && |chains| == |buckets| == numBuckets && numItems == |order|
      ensures forall i :: 0 <= i < |order| ==>
        && order[i] in keys && order[i] in hashv && hashv[order[i]] == hash(keys[order[i]])
        && order[i] in chains[hash(keys[order[i]]) % numBuckets]
      ensures order != [] ==> forall b :: 0 <= b < numBuckets ==>
        && buckets[b].hhHead == (if chains[b] == [] then 0 else chains[b][0])
        && buckets[b].count == |chains[b]|
    {
      hide Filed, Linked, Keyed;
      KeyedItems(order, keys, hashv, hash);
      forall i | 0 <= i < |order|
        ensures numBuckets > 0 && |chains| == numBuckets && order[i] in chains[hash(keys[order[i]]) % numBuckets]
      {
        OnChain(chains, hashv, order, i);
      }
      if head != NULL {
        ChainsAre(buckets, hhNext, hhPrev, chains);
      }
    }

    constructor (h: Key -> nat)
      ensures Valid() && Contents() == [] && hash == h
    {
      hash := h;
      head, next, prev, hhNext, hhPrev, keys, hashv := NULL, map[], map[], map[], map[], map[], map[];
      buckets, numBuckets, log2NumBuckets, numItems, tail := [], 0, 0, 0, NULL;
      idealChainMaxlen, nonidealItems, ineffExpands, noexpand := 0, 0, 0, false;
      order, chains := [], [];
    }

    /** The inner part of HASH_EXPAND_BUCKETS: one item goes to the front of its new chain. */
    method MoveItem(thh: Ptr, newBuckets: seq<Bucket>, ghost newChains: seq<seq<Ptr>>, ghost done: set<Ptr>)
      returns (moved: seq<Bucket>, ghost movedChains: seq<seq<Ptr>>)
      requires |newChains| == |newBuckets| == Pow2(log2NumBuckets + 1) && thh in hashv && thh !in done && thh != NULL
      requires Chained(newBuckets, hhNext, hhPrev, newChains) && Filed(newChains, hashv, done)
      requires nonidealItems == Excess(newBuckets, idealChainMaxlen) && AllWidened(newBuckets, idealChainMaxlen)
      modifies this`hhNext, this`hhPrev, this`nonidealItems
      ensures |movedChains| == |moved| == |newBuckets| && Chained(moved, hhNext, hhPrev, movedChains)
      ensures Filed(movedChains, hashv, done + {thh})
      ensures nonidealItems == Excess(moved, idealChainMaxlen) && AllWidened(moved, idealChainMaxlen)
      ensures hhNext == old(hhNext)[thh := newBuckets[hashv[thh] % |newBuckets|].hhHead]
    {
      hide Linked, Chained, Filed, Excess, AllWidened, And, Pow2;
      var bkt := ToBkt(hashv[thh], |newBuckets|);
      MaskIsRemainder(hashv[thh], log2NumBuckets + 1);
      var count, em := newBuckets[bkt].count + 1, newBuckets[bkt].expandMult;
      FileFront(newBuckets, hhNext, hhPrev, newChains, hashv, done, thh,
                em + if count > idealChainMaxlen && count > em * idealChainMaxlen then 1 else 0);
      Counted(newBuckets, bkt, thh, em + if count > idealChainMaxlen && count > em * idealChainMaxlen then 1 else 0,
        idealChainMaxlen);
      if count > idealChainMaxlen {
        nonidealItems := nonidealItems + 1;
        if count > em * idealChainMaxlen {
          em := em + 1;
        }
      }
      var h := newBuckets[bkt].hhHead;
      hhPrev := hhPrev[thh := NULL];
      hhNext := hhNext[thh := h];
      if h != NULL {
        hhPrev := hhPrev[h := thh];
      }
      moved := newBuckets[bkt := Bucket(thh, count, em)];
      movedChains := newChains[bkt := [thh] + newChains[bkt]];
    }

    /** The items that are in the new buckets once the first `i` chains have been moved. */
    ghost predicate Halfway(newBuckets: seq<Bucket>, newChains: seq<seq<Ptr>>, D: set<Ptr>, i: nat, k: nat)
      requires D <= hashv.Keys && |chains| > 0 && (i < |chains| ==> k <= |chains[i]|)
      reads this`hhNext, this`hhPrev, this`nonidealItems, this`idealChainMaxlen, this`chains, this`hashv
    {
      && Chained(newBuckets, hhNext, hhPrev, newChains) && Filed(newChains, hashv, Done(D, hashv, chains, i, k))
      && Untouched(hhNext, chains, i, k)
      && nonidealItems == Excess(newBuckets, idealChainMaxlen) && AllWidened(newBuckets, idealChainMaxlen)
    }

    /** The loop of HASH_EXPAND_BUCKETS over one old chain. */
    method MoveChain(i: nat, newBuckets: seq<Bucket>, ghost newChains: seq<seq<Ptr>>, ghost D: set<Ptr>)
      returns (moved: seq<Bucket>, ghost movedChains: seq<seq<Ptr>>)
      requires |newChains| == |newBuckets| == Pow2(log2NumBuckets + 1) && i < |chains| == |buckets|
      requires D <= hashv.Keys && NULL !in D && Filed(chains, hashv, D)
      requires Links.Distinct(chains[i]) && buckets[i].hhHead == At(chains[i], 0) && NULL !in chains[i]
      requires Halfway(newBuckets, newChains, D, i, 0)
      modifies this`hhNext, this`hhPrev, this`nonidealItems
      ensures |movedChains| == |moved| == |newBuckets| && Halfway(moved, movedChains, D, i + 1, 0)
    {
      hide Linked, Chained, Filed, Untouched, Excess, AllWidened, Done, Pow2;
      moved, movedChains := newBuckets, newChains;
      var thh := buckets[i].hhHead;
      ghost var k := 0;
      while thh != NULL
        invariant k <= |chains[i]| && thh == At(chains[i], k) && |movedChains| == |moved| == |newBuckets|
        invariant Halfway(moved, movedChains, D, i, k)
        decreases |chains[i]| - k
      {
        NextAhead(hhNext, chains, i, k);
        DoneNext(D, hashv, chains, i, k);
        var nxt := hhNext[thh];
        TouchOne(hhNext, chains, hashv, D, i, k, moved[hashv[thh] % |newBuckets|].hhHead);
        moved, movedChains := MoveItem(thh, moved, movedChains, Done(D, hashv, chains, i, k));
        thh, k := nxt, k + 1;
      }
      DoneChain(D, hashv, chains, i);
      UntouchedNext(hhNext, chains, i, k);
    }

    /** The part of HASH_EXPAND_BUCKETS that fills the new buckets. */
    method Redistribute(size: nat) returns (newBuckets: seq<Bucket>, ghost newChains: seq<seq<Ptr>>)
      requires Filing() && size == 2 * numBuckets
      modifies this`hhNext, this`hhPrev, this`idealChainMaxlen, this`nonidealItems
      ensures |newChains| == size && Chained(newBuckets, hhNext, hhPrev, newChains)
      ensures Filed(newChains, hashv, Elements(order))
      ensures IsCeil(idealChainMaxlen, numItems, size)
      ensures nonidealItems == Excess(newBuckets, idealChainMaxlen) && AllWidened(newBuckets, idealChainMaxlen)
    {
      hide Linked, Chained, Filed, Untouched, Excess, AllWidened, Done, And, Pow2, IsCeil, Shr;
      ghost var D := Elements(order);
      Doubled(log2NumBuckets);
      newBuckets, newChains := seq(size, _ => Bucket(NULL, 0, 0)), seq(size, _ => []);
      idealChainMaxlen := Shr(numItems, log2NumBuckets + 1) + if And(numItems, size - 1) != 0 then 1 else 0;
      IdealIsCeil(numItems, log2NumBuckets + 1);
      nonidealItems := 0;
      EmptyBuckets(hhNext, hhPrev, hashv, size, idealChainMaxlen);
      AllAhead(buckets, hhNext, hhPrev, chains);
      DoneNone(D, hashv, chains);
      for i := 0 to numBuckets
        modifies this`hhNext, this`hhPrev, this`nonidealItems
        invariant |newChains| == |newBuckets| == size && Halfway(newBuckets, newChains, D, i, 0)
      {
        newBuckets, newChains := MoveChain(i, newBuckets, newChains, D);
      }
      DoneAll(D, hashv, chains);
    }

    /** HASH_EXPAND_BUCKETS */
    method ExpandBuckets()
      requires Filing()
      modifies this`hhNext, this`hhPrev, this`buckets, this`numBuckets, this`log2NumBuckets, this`idealChainMaxlen,
               this`nonidealItems, this`ineffExpands, this`noexpand, this`chains
      ensures Filing() && numBuckets == 2 * old(numBuckets)
      ensures numItems <= idealChainMaxlen * numBuckets
      ensures idealChainMaxlen > 0 ==> (idealChainMaxlen - 1) * numBuckets < numItems
      ensures nonidealItems == Excess(buckets, idealChainMaxlen) && AllWidened(buckets, idealChainMaxlen)
      ensures ineffExpands == if nonidealItems > numItems / 2 then old(ineffExpands) + 1 else 0
      ensures noexpand == (old(noexpand) || ineffExpands > 1)
    {
      hide Linked, Chained, Filed, Excess, AllWidened, Pow2, IsCeil, Shr;
      var newBuckets, newChains := Redistribute(2 * numBuckets);
      Doubled(log2NumBuckets);
      numBuckets := 2 * numBuckets;
      log2NumBuckets := log2NumBuckets + 1;
      buckets, chains := newBuckets, newChains;
      CeilMeans(idealChainMaxlen, numItems, numBuckets);
      Judge();
    }

    /** Its end: after two poor expansions in a row there is no other. */
    method Judge()
      modifies this`ineffExpands, this`noexpand
      ensures ineffExpands == if nonidealItems > numItems / 2 then old(ineffExpands) + 1 else 0
      ensures noexpand == (old(noexpand) || ineffExpands > 1)
    {
      ShrOne(numItems);
      ineffExpands := if nonidealItems > Shr(numItems, 1) then ineffExpands + 1 else 0;
      if ineffExpands > 1 {
        noexpand := true;
      }
    }

    /** HASH_ADD_TO_BKT, for an item that the list and the count have already. */
    method AddToBkt(bkt: nat, x: Ptr)
      requires numBuckets == Pow2(log2NumBuckets) == |chains| == |buckets| && numItems == |order|
      requires Chained(buckets, hhNext, hhPrev, chains)
      requires x in order && NULL !in order && Elements(order) <= hashv.Keys
      requires Filed(chains, hashv, Elements(order) - {x})
      requires bkt == hashv[x] % numBuckets
      modifies this`hhNext, this`hhPrev, this`buckets, this`numBuckets, this`log2NumBuckets, this`idealChainMaxlen,
               this`nonidealItems, this`ineffExpands, this`noexpand, this`chains
      ensures Filing()
      ensures var b := old(buckets)[bkt];
        numBuckets == old(numBuckets) *
          if b.count + 1 >= (b.expandMult + 1) * 10 && !old(noexpand) then 2 else 1
    {
      hide Linked, Chained, Filed, Pow2;
      FileFront(buckets, hhNext, hhPrev, chains, hashv, Elements(order) - {x}, x, buckets[bkt].expandMult);
      assert Elements(order) - {x} + {x} == Elements(order);
      var b := buckets[bkt];
      hhNext := hhNext[x := b.hhHead];
      hhPrev := hhPrev[x := NULL];
      if b.hhHead != NULL {
        hhPrev := hhPrev[b.hhHead := x];
      }
      buckets := buckets[bkt := Bucket(x, b.count + 1, b.expandMult)];
      chains := chains[bkt := [x] + chains[bkt]];
      assert Filing();
      if b.count + 1 >= (b.expandMult + 1) * HASH_BKT_CAPACITY_THRESH && !noexpand {
        ExpandBuckets();
      }
    }

    /** HASH_MAKE_TABLE, for the first item `x`. */
    method MakeTable(x: Ptr)
      modifies this`buckets, this`numBuckets, this`log2NumBuckets, this`numItems, this`tail, this`idealChainMaxlen,
               this`nonidealItems, this`ineffExpands, this`noexpand, this`chains
      ensures numBuckets == 32 == Pow2(log2NumBuckets) == |chains| == |buckets| && log2NumBuckets == 5
      ensures numItems == 0 && tail == x
      ensures Chained(buckets, hhNext, hhPrev, chains) && Filed(chains, hashv, {})
      ensures !noexpand && ineffExpands == 0
    {
      hide Linked, Chained, Filed, Excess, AllWidened, Pow2;
      tail, numItems := x, 0;
      numBuckets, log2NumBuckets := HASH_INITIAL_NUM_BUCKETS, HASH_INITIAL_NUM_BUCKETS_LOG2;
      idealChainMaxlen, nonidealItems, ineffExpands, noexpand := 0, 0, 0, false;
      buckets := seq(HASH_INITIAL_NUM_BUCKETS, _ => Bucket(NULL, 0, 0));
      chains := seq(HASH_INITIAL_NUM_BUCKETS, _ => []);
      EmptyBuckets(hhNext, hhPrev, hashv, HASH_INITIAL_NUM_BUCKETS, 0);
      ThirtyTwo();
    }

    /** HASH_APPEND_LIST */
    method AppendList(x: Ptr)
      requires order != [] && Linked(head, next, prev, order) && tail == order[|order| - 1] && x != NULL && x !in order
      modifies this`next, this`prev, this`tail, this`order
      ensures order == old(order) + [x] && Linked(head, next, prev, order) && tail == x
    {
      hide Linked;
      PushBack(head, next, prev, order, x);
      next := next[x := NULL];
      prev := prev[x := tail];
      next := next[tail := x];
      tail := x;
      order := order + [x];
    }

    /** The first item makes the table and is the whole list. */
    method StartTable(x: Ptr)
      requires order == [] && x != NULL
      modifies this`next, this`prev, this`head, this`buckets, this`numBuckets, this`log2NumBuckets, this`numItems,
        this`tail,
               this`idealChainMaxlen, this`nonidealItems, this`ineffExpands, this`noexpand, this`order, this`chains
      ensures order == [x] && head == x == tail && Linked(head, next, prev, order) && numItems == 0
      ensures numBuckets == 32 && log2NumBuckets == 5
      ensures numBuckets == Pow2(log2NumBuckets) == |chains| == |buckets|
      ensures Chained(buckets, hhNext, hhPrev, chains) && Filed(chains, hashv, {})
    {
      hide Linked, Chained, Filed, Pow2;
      next, prev := next[x := NULL], prev[x := NULL];
      MakeTable(x);
      head, order := x, [x];
      SingleLinked(next, prev, x);
    }

    /** HASH_ADD_KEYPTR but for the key: the item goes on the list and into its bucket. */
    method Enter(x: Ptr, h: nat)
      requires Tabled() && x != NULL && x !in order
      modifies this`next, this`prev, this`hhNext, this`hhPrev, this`head, this`hashv, this`buckets, this`numBuckets,
        this`log2NumBuckets,
               this`numItems, this`tail, this`idealChainMaxlen, this`nonidealItems, this`ineffExpands, this`noexpand,
               this`order, this`chains
      ensures Tabled() && order == old(order) + [x] && hashv == old(hashv)[x := h]
    {
      hide Linked, Chained, Filed, Pow2, And;
      ElementsMore(order, x);
      if head == NULL {
        assert order + [x] == [x] && Elements(order) == {};
        hashv := hashv[x := h];
        StartTable(x);
      } else {
        ChainedSize(buckets, hhNext, hhPrev, chains);
        FiledFrame(chains, hashv, hashv[x := h], Elements(order), x);
        hashv := hashv[x := h];
        AppendList(x);
      }
      Count(x);
    }

    /** HASH_ADD_TO_TABLE */
    method Count(x: Ptr)
      requires head != NULL && numBuckets == Pow2(log2NumBuckets) == |chains| == |buckets| && numItems == |order| - 1
      requires Linked(head, next, prev, order) && tail == order[|order| - 1] && Chained(buckets, hhNext, hhPrev, chains)
      requires x in order && NULL !in order && Elements(order) <= hashv.Keys
      requires Filed(chains, hashv, Elements(order) - {x})
      modifies this`numItems, this`hhNext, this`hhPrev, this`buckets, this`numBuckets, this`log2NumBuckets,
        this`idealChainMaxlen,
               this`nonidealItems, this`ineffExpands, this`noexpand, this`chains
      ensures Tabled()
    {
      hide Linked, Chained, Filed, Pow2, And;
      numItems := numItems + 1;
      MaskIsRemainder(hashv[x], log2NumBuckets);
      AddToBkt(ToBkt(hashv[x], numBuckets), x);
    }

    /** HASH_ADD_KEYPTR: the item at the free address `x` gets the fresh key `k`. */
    method Add(x: Ptr, k: Key)
      requires Valid() && x != NULL && x !in order && forall y :: y in order ==> keys[y] != k
      modifies this
      ensures Valid() && Contents() == old(Contents()) + [(k, x)]
    {
      hide Linked, Chained, Filed, Pow2, Keyed, Entries, And;
      KeyedItems(order, keys, hashv, hash);
      EntriesMore(order, keys, hashv, hash, x, k);
      keys := keys[x := k];
      Enter(x, hash(k));
    }

    /** HASH_FIND */
    method Find(k: Key) returns (out: Ptr)
      requires Valid()
      ensures out == NULL ==> forall i :: 0 <= i < |Contents()| ==> Contents()[i].0 != k
      ensures out != NULL ==> (k, out) in Contents()
    {
      hide Linked, Chained, Filed, Pow2;
      out := NULL;
      if head == NULL {
        return;
      }
      var h := hash(k);
      var bkt := ToBkt(h, numBuckets);
      MaskIsRemainder(h, log2NumBuckets);
      AllAhead(buckets, hhNext, hhPrev, chains);
      out := buckets[bkt].hhHead;
      ghost var i := 0;
      while out != NULL
        invariant i <= |chains[bkt]| && out == At(chains[bkt], i)
        invariant forall m :: 0 <= m < i ==> chains[bkt][m] in keys && keys[chains[bkt][m]] != k
        decreases |chains[bkt]| - i
      {
        OnList(chains, hashv, order, bkt, i);
        if hashv[out] == h && keys[out] == k {
          break;
        }
        AheadAt(hhNext, chains, bkt, i);
        out, i := hhNext[out], i + 1;
      }
      if out != NULL {
        ghost var j :| 0 <= j < |order| && order[j] == out;
        assert Entries(order, keys)[j] == (k, out);
      } else {
        forall j | 0 <= j < |order| ensures keys[order[j]] != k {
          OnChain(chains, hashv, order, j);
        }
      }
    }

    /** HASH_DEL_IN_BKT */
    method DelInBkt(bkt: nat, x: Ptr, ghost i: nat)
      requires Chained(buckets, hhNext, hhPrev, chains) && Filed(chains, hashv, Elements(order) + {x})
      requires x in hashv && x in hhNext && x in hhPrev && |chains| > 0 && bkt == hashv[x] % |chains|
      requires i < |chains[bkt]| && chains[bkt][i] == x
      modifies this`hhNext, this`hhPrev, this`buckets, this`chains
      ensures |chains| == |old(chains)| && Chained(buckets, hhNext, hhPrev, chains)
      ensures Filed(chains, hashv, Elements(order) + {x} - {x})
    {
      hide Linked, Filed;
      Unfile(buckets, hhNext, hhPrev, chains, hashv, Elements(order) + {x}, x, i);
      var b := buckets[bkt];
      buckets := buckets[bkt := Bucket(if b.hhHead == x then hhNext[x] else b.hhHead, b.count - 1, b.expandMult)];
      var after, before := hhNext[x], hhPrev[x];
      if before != NULL {
        hhNext := hhNext[before := after];
      }
      if after != NULL {
        hhPrev := hhPrev[after := before];
      }
      chains := chains[bkt := Without(chains[bkt], i)];
    }

    /** HASH_DELETE_HH */
    method Delete(x: Ptr, ghost i: nat)
      requires Valid() && i < |order| && order[i] == x
      modifies this
      ensures Valid() && Contents() == old(Contents()[..i] + Contents()[i + 1..])
    {
      hide Linked, Keyed, Entries, Filing;
      NeighboursOf(head, next, prev, order, i);
      KeyedItems(order, keys, hashv, hash);
      EntriesLess(order, keys, hashv, hash, i);
      if prev[x] == NULL && next[x] == NULL {
        head, order := NULL, Without(order, i);
        return;
      }
      Leave(x, i);
    }

    /** The else branch of HASH_DELETE_HH: the item is not the only one. */
    method Leave(x: Ptr, ghost i: nat)
      requires Tabled() && i < |order| && order[i] == x && |order| > 1 && x in next && x in prev && x in hashv
      modifies this`next, this`prev, this`head, this`tail, this`order, this`hhNext, this`hhPrev, this`buckets,
        this`chains, this`numItems
      ensures Tabled() && order == Without(old(order), i)
    {
      hide Linked, Chained, Filed, Pow2, And;
      NeighboursOf(head, next, prev, order, i);
      ElementsWithout(order, i);
      ghost var at := ChainPlace(buckets, hhNext, hhPrev, chains, hashv, Elements(order), x);
      Unlink(x, i);
      MaskIsRemainder(hashv[x], log2NumBuckets);
      DelInBkt(ToBkt(hashv[x], numBuckets), x, at);
      numItems := numItems - 1;
      assert Elements(order) + {x} - {x} == Elements(order);
    }

    /** The part of HASH_DELETE_HH that takes an item, not the only one, out of the list. */
    method Unlink(x: Ptr, ghost i: nat)
      requires Linked(head, next, prev, order) && i < |order| && order[i] == x && |order| > 1
      requires tail == order[|order| - 1]
      requires x in next && x in prev
      modifies this`next, this`prev, this`head, this`tail, this`order
      ensures order == Without(old(order), i) && Linked(head, next, prev, order)
      ensures tail == order[|order| - 1] && head != NULL
    {
      hide Linked;
      NeighboursOf(head, next, prev, order, i);
      Remove(head, next, prev, order, i);
      var after, before := next[x], prev[x];
      if x == tail {
        tail := before;
      }
      if before != NULL {
        next := next[before := after];
      } else {
        head := after;
      }
      if after != NULL {
        prev := prev[after := before];
      }
      order := Without(order, i);
      LinkedEnds(head, next, prev, order);
    }
  }

  /** A list, link by link. */
  lemma LinkedIs(h: Ptr, n: Link, p: Link, s: seq<Ptr>)
    requires Linked(h, n, p, s)
    ensures forall x :: x in s ==> x != 0 && x in n && x in p
    ensures s != [] ==> h == s[0] && p[s[0]] == 0 && n[s[|s| - 1]] == 0
    ensures forall i, j :: 0 <= i < j < |s| && j == i + 1 ==> n[s[i]] == s[j] && p[s[j]] == s[i]
  {
  }

  lemma LinkedStarts(h: Ptr, n: Link, p: Link, s: seq<Ptr>)
    requires Linked(h, n, p, s)
    ensures h == if s == [] then 0 else s[0]
  {
  }

  lemma ChainsAre(buckets: seq<Bucket>, n: Link, p: Link, chains: seq<seq<Ptr>>)
    requires Chained(buckets, n, p, chains)
    ensures |buckets| == |chains|
    ensures forall b :: 0 <= b < |chains| ==>
      && buckets[b].hhHead == (if chains[b] == [] then 0 else chains[b][0])
      && buckets[b].count == |chains[b]|
  {
    hide Linked;
    forall b | 0 <= b < |chains|
      ensures buckets[b].hhHead == (if chains[b] == [] then 0 else chains[b][0])
    {
      LinkedStarts(buckets[b].hhHead, n, p, chains[b]);
    }
  }

  lemma LinkedEnds(h: Ptr, n: Link, p: Link, s: seq<Ptr>)
    requires Linked(h, n, p, s) && s != []
    ensures h == s[0] && h != NULL
  {
  }

  lemma KeyedItems(order: seq<Ptr>, keys: map<Ptr, Key>, hashv: map<Ptr, nat>, hash: Key -> nat)
    requires Keyed(order, keys, hashv, hash)
    ensures forall x :: x in order ==> x in keys && x in hashv && hashv[x] == hash(keys[x])
  {
  }

  lemma ChainedSize(buckets: seq<Bucket>, n: Link, p: Link, chains: seq<seq<Ptr>>)
    requires Chained(buckets, n, p, chains)
    ensures |buckets| == |chains|
  {
  }

  lemma ElementsMore(s: seq<Ptr>, x: Ptr)
    requires x !in s
    ensures Elements(s + [x]) - {x} == Elements(s)
  {
  }

  lemma ThirtyTwo()
    ensures Pow2(5) == 32
  {
    assert Pow2(3) == 8;
  }

  lemma SingleLinked(n: Link, p: Link, x: Ptr)
    requires x != NULL && x in n && n[x] == NULL && x in p && p[x] == NULL
    ensures Linked(x, n, p, [x])
  {
  }

  lemma FiledFrame(chains: seq<seq<Ptr>>, hashv: map<Ptr, nat>, hashv1: map<Ptr, nat>, D: set<Ptr>, x: Ptr)
    requires Filed(chains, hashv, D) && x !in D && D <= hashv.Keys
    requires forall y :: y in D ==> y in hashv1 && hashv1[y] == hashv[y]
    ensures Filed(chains, hashv1, D)
  {
  }

  lemma OnList(chains: seq<seq<Ptr>>, hashv: map<Ptr, nat>, order: seq<Ptr>, b: nat, i: nat)
    requires Filed(chains, hashv, Elements(order)) && b < |chains| && i < |chains[b]|
    ensures chains[b][i] in order && chains[b][i] in hashv
  {
    assert InChain(chains, b, chains[b][i]);
  }

  lemma OnChain(chains: seq<seq<Ptr>>, hashv: map<Ptr, nat>, order: seq<Ptr>, j: nat)
    requires Filed(chains, hashv, Elements(order)) && j < |order| && order[j] in hashv
    ensures order[j] in chains[hashv[order[j]] % |chains|]
  {
    assert order[j] in Elements(order);
    assert InChain(chains, hashv[order[j]] % |chains|, order[j]);
  }

  lemma AheadAt(n: Link, chains: seq<seq<Ptr>>, b: nat, i: nat)
    requires Untouched(n, chains, 0, 0) && b < |chains| && i < |chains[b]|
    ensures chains[b][i] in n && n[chains[b][i]] == At(chains[b], i + 1)
  {
    assert Ahead(n, chains[b], 0);
  }

  lemma NeighboursOf(h: Ptr, n: Link, p: Link, s: seq<Ptr>, i: nat)
    requires Linked(h, n, p, s) && i < |s|
    ensures s[i] in n && s[i] in p && n[s[i]] == At(s, i + 1) && p[s[i]] == At(s, i - 1) && h == s[0]
    ensures (n[s[i]] == NULL <==> i == |s| - 1) && (p[s[i]] == NULL <==> i == 0)
    ensures (s[i] == s[|s| - 1] <==> i == |s| - 1) && Links.Distinct(s)
    ensures i > 0 && i == |s| - 1 ==> p[s[i]] == s[|s| - 2]
  {
  }

  lemma ElementsWithout(s: seq<Ptr>, i: nat)
    requires Links.Distinct(s) && i < |s|
    ensures Elements(s) == Elements(Without(s, i)) + {s[i]} && s[i] !in Elements(Without(s, i))
  {
    WithoutDistinct(s, i);
  }

  lemma ChainPlace(buckets: seq<Bucket>, n: Link, p: Link, chains: seq<seq<Ptr>>, hashv: map<Ptr, nat>, D: set<Ptr>,
      x: Ptr)
    returns (i: nat)
    requires Chained(buckets, n, p, chains) && Filed(chains, hashv, D) && x in D && x in hashv
    ensures x in n && x in p
    ensures var b := hashv[x] % |chains|; i < |chains[b]| && chains[b][i] == x
  {
    var b := hashv[x] % |chains|;
    assert InChain(chains, b, x);
    i :| 0 <= i < |chains[b]| && chains[b][i] == x;
    assert Linked(buckets[b].hhHead, n, p, chains[b]);
  }

  lemma Doubled(k: nat)
    ensures Pow2(k + 1) == 2 * Pow2(k)
  {
  }

  lemma ShrOne(x: nat)
    ensures Shr(x, 1) == x / 2
  {
    assert Shr(x / 2, 0) == x / 2;
  }

  lemma NextAhead(n: Link, chains: seq<seq<Ptr>>, i: nat, k: nat)
    requires Untouched(n, chains, i, k) && i < |chains| && k < |chains[i]|
    ensures chains[i][k] in n && n[chains[i][k]] == At(chains[i], k + 1)
  {
  }
}
