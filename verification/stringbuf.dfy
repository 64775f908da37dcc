// A list of pieces of text with a pointer to its last link.

module StringBufs {
  import opened Links

  /** What `tail` points at: the head pointer, or the `next` of a node. */
  datatype Place = Head | NextOf(node: Ptr)

  ghost function Concat(nodes: seq<Ptr>, str: map<Ptr, string>): string
    requires forall n :: n in nodes ==> n in str
  {
    if nodes == [] then "" else Concat(nodes[..|nodes| - 1], str) + str[nodes[|nodes| - 1]]
  }

  predicate NulFree(s: string) {
    '\0' !in s
  }

  lemma {:induction false} ConcatSame(nodes: seq<Ptr>, str: map<Ptr, string>, str1: map<Ptr, string>)
    requires forall n :: n in nodes ==> n in str && n in str1 && str1[n] == str[n]
    ensures Concat(nodes, str1) == Concat(nodes, str)
  {
    if nodes != [] {
      ConcatSame(nodes[..|nodes| - 1], str, str1);
    }
  }

  lemma ConcatMore(nodes: seq<Ptr>, str: map<Ptr, string>, n: Ptr, s: string)
    requires n !in nodes && forall m :: m in nodes ==> m in str
    ensures Concat(nodes + [n], str[n := s]) == Concat(nodes, str) + s
  {
    assert (nodes + [n])[..|nodes|] == nodes;
    ConcatSame(nodes, str, str[n := s]);
  }

  lemma NothingYet(str: map<Ptr, string>)
    ensures Concat([], str) == ""
  {
  }

  lemma ConcatNext(nodes: seq<Ptr>, str: map<Ptr, string>, k: nat)
    requires k < |nodes| && forall m :: m in nodes ==> m in str
    ensures Concat(nodes[..k + 1], str) == Concat(nodes[..k], str) + str[nodes[k]]
  {
    assert nodes[..k + 1][..k] == nodes[..k];
  }

  /** The nodes form a list from `head`, and `tail` addresses its last link. */
  ghost predicate Chain(head: Ptr, tail: Place, next: Link, nodes: seq<Ptr>) {
    && head == At(nodes, 0) && Distinct(nodes)
    && tail == (if nodes == [] then Head else NextOf(nodes[|nodes| - 1]))
    && forall k :: 0 <= k < |nodes| ==> nodes[k] != NULL && nodes[k] in next && next[nodes[k]] == At(nodes, k + 1)
  }

  /** Each node knows the length of its NUL-free text. */
  ghost predicate Texts(nodes: seq<Ptr>, str: map<Ptr, string>, len: map<Ptr, nat>) {
    forall n :: n in nodes ==> n in str && n in len && len[n] == |str[n]| && NulFree(str[n])
  }

  /** The last link is made to point at the new node, and `tail` at the new node's link. */
  lemma ChainMore(head: Ptr, tail: Place, next: Link, nodes: seq<Ptr>, n: Ptr)
    requires Chain(head, tail, next, nodes) && n != NULL && n !in nodes
    ensures Chain(if tail.Head? then n else head, NextOf(n),
      if tail.Head? then next[n := NULL] else next[n := NULL][tail.node := n],
                  nodes + [n])
  {
    var more := nodes + [n];
    var next1 := if tail.Head? then next[n := NULL] else next[n := NULL][tail.node := n];
    forall k | 0 <= k < |more| ensures more[k] != NULL && more[k] in next1 && next1[more[k]] == At(more, k + 1) {
      if k < |nodes| {
        assert next[nodes[k]] == At(nodes, k + 1);
        assert k < |nodes| - 1 ==> nodes[k] != nodes[|nodes| - 1];
      }
    }
  }

  lemma TextsMore(nodes: seq<Ptr>, str: map<Ptr, string>, len: map<Ptr, nat>, n: Ptr, s: string)
    requires Texts(nodes, str, len) && NulFree(s)
    ensures Texts(nodes + [n], str[n := s], len[n := |s|]) && forall m :: m in nodes ==> m in str
  {
    hide NulFree;
  }

  class StringBuf {
    var head: Ptr
    var tail: Place
    var str: map<Ptr, string>
    var len: map<Ptr, nat>
    var next: Link
    var unused: Ptr                   // the allocator hands out this address next
    ghost var nodes: seq<Ptr>

    ghost predicate Valid()
      reads this
    {
      Chain(head, tail, next, nodes) && Texts(nodes, str, len) && unused != NULL && forall n :: n in nodes ==>
        n < unused
    }

    ghost function Contents(): string
      requires Valid()
      reads this
    {
      Concat(nodes, str)
    }

    /** string_buf_new */
    constructor ()
      ensures Valid() && Contents() == "" && nodes == []
    {
      head, tail, str, len, next, nodes, unused := NULL, Head, map[], map[], map[], [], 1;
    }

    /** string_buf_lpush; string_buf_push does the same with a whole C string. */
    method Push(s: string)
      requires Valid() && NulFree(s)
      modifies this
      ensures Valid() && Contents() == old(Contents()) + s && nodes != []
    {
      hide Chain, Concat, Texts, NulFree;
      var n := unused;
      unused := unused + 1;
      TextsMore(nodes, str, len, n, s);
      ChainMore(head, tail, next, nodes, n);
      ConcatMore(nodes, str, n, s);
      str, len, next := str[n := s], len[n := |s|], next[n := NULL];
      match tail {
        case Head => head := n;
        case NextOf(last) => next := next[last := n];
      }
      tail := NextOf(n);
      nodes := nodes + [n];
    }

    /** string_buf_is_empty */
    method IsEmpty() returns (empty: bool)
      requires Valid()
      ensures empty <==> nodes == []
      ensures empty ==> Contents() == ""
    {
      empty := head == NULL;
    }

    /** string_buf_clear */
    method Clear()
      requires Valid()
      modifies this
      ensures Valid() && nodes == []
    {
      head, tail := NULL, Head;
      nodes := [];
    }

    /** string_buf_dump */
    method Dump() returns (ret: string)
      requires Valid()
      modifies this
      ensures ret == old(Contents())
      ensures Valid() && nodes == [] && Contents() == ""
    {
      hide Concat, NulFree;
      ret := "";
      NothingYet(str);
      var tmp := head;
      ghost var k := 0;
      assert nodes[..0] == [] && nodes[..|nodes|] == nodes;
      while tmp != NULL
        modifies {}
        invariant k <= |nodes| && tmp == At(nodes, k) && ret == Concat(nodes[..k], str)
        decreases |nodes| - k
      {
        ConcatNext(nodes, str, k);
        ret := ret + str[tmp][..len[tmp]];
        tmp, k := next[tmp], k + 1;
      }
      head, tail := NULL, Head;
      nodes := [];
    }
  }
}
