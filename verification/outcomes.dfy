// What every kind of promise settles to, said of the settlements and of the program's
// handlers alone.

module Outcomes {
  import opened Base
  import opened Promises
  import opened Scheduling
  import opened Gathering
  import opened Drained

  lemma WhyAllowed(s: State, turn: Turn, d: Id)
    requires Core(s, turn) && d in s.ledger.settled
    ensures d in s.ledger.rank && Allowed(s.net, s.ledger, d, s.ledger.settled[d], s.ledger.rank[d])
  {
    hide Stacked, Placed, Stages, Awake, CalledOnce;
  }

  // ---- then and catch ----------------------------------------------------------------------

  /** A promise that `then` or `catch` made of a resolved one. */
  lemma AfterResolved(s: State, turn: Turn, d: Id, q: Id, f: Option<Handler>, r: Option<Handler>, v: Value)
    requires Core(s, turn) && d in s.ledger.settled && d !in s.net.forced
    requires d in s.net.defs && s.net.defs[d] == Derived(q, f, r)
    requires q in s.ledger.settled && s.ledger.settled[q] == Resolved(v)
    ensures f == None ==> s.ledger.settled[d] == Resolved(v)
    ensures f.Some? && f.value.User? ==> var reply := s.net.code(f.value.code, v);
      && !reply.Failed?
      && (reply.Returned? ==> s.ledger.settled[d] == Resolved(reply.value))
      && (reply.Threw? ==> s.ledger.settled[d] == Rejected(reply.error))
      && (reply.Adopted? ==>
            reply.promise in s.ledger.settled && s.ledger.settled[d] == s.ledger.settled[reply.promise])
    ensures f.Some? && !f.value.User? ==> s.ledger.settled[d] == Resolved(Nil)
  {
    WhyAllowed(s, turn, d);
  }

  /** A promise that `then` or `catch` made of a rejected one. */
  lemma AfterRejected(s: State, turn: Turn, d: Id, q: Id, f: Option<Handler>, r: Option<Handler>, e: Value)
    requires Core(s, turn) && d in s.ledger.settled && d !in s.net.forced
    requires d in s.net.defs && s.net.defs[d] == Derived(q, f, r)
    requires q in s.ledger.settled && s.ledger.settled[q] == Rejected(e)
    ensures r == None ==> s.ledger.settled[d] == Rejected(e)
    ensures r.Some? && r.value.User? ==> var reply := s.net.code(r.value.code, e);
      && !reply.Failed?
      && (reply.Returned? ==> s.ledger.settled[d] == Resolved(reply.value))
      && (reply.Threw? ==> s.ledger.settled[d] == Rejected(reply.error))
      && (reply.Adopted? ==>
            reply.promise in s.ledger.settled && s.ledger.settled[d] == s.ledger.settled[reply.promise])
  {
    WhyAllowed(s, turn, d);
  }

  /** It is not settled before the one it was made of, unless the program does it. */
  lemma ParentFirst(s: State, turn: Turn, d: Id)
    requires Core(s, turn) && d in s.ledger.settled && d !in s.net.forced
    requires d in s.net.defs && s.net.defs[d].Derived?
    ensures var q := s.net.defs[d].parent;
      q in s.ledger.settled && q in s.ledger.rank && d in s.ledger.rank && s.ledger.rank[q] < s.ledger.rank[d]
  {
    WhyAllowed(s, turn, d);
  }

  /** With nothing pending it is settled, if its handler does not fail and does not return a
      promise that is not settled or is the one it was called for. */
  lemma ResolvedSettles(s: State, d: Id, q: Id, f: Option<Handler>, r: Option<Handler>, v: Value)
    requires AtRest(s) && d in s.net.defs && s.net.defs[d] == Derived(q, f, r)
    requires q in s.ledger.settled && s.ledger.settled[q] == Resolved(v)
    requires f.Some? && f.value.User? ==> var reply := s.net.code(f.value.code, v);
      !reply.Failed? && (reply.Adopted? ==> reply.promise in s.ledger.settled && reply.promise != q)
    ensures d in s.ledger.settled
  {
    hide AtRest;
    DerivedSettles(s, d);
  }

  lemma RejectedSettles(s: State, d: Id, q: Id, f: Option<Handler>, r: Option<Handler>, e: Value)
    requires AtRest(s) && d in s.net.defs && s.net.defs[d] == Derived(q, f, r)
    requires q in s.ledger.settled && s.ledger.settled[q] == Rejected(e)
    requires r.Some? && r.value.User? ==> var reply := s.net.code(r.value.code, e);
      !reply.Failed? && (reply.Adopted? ==> reply.promise in s.ledger.settled && reply.promise != q)
    ensures d in s.ledger.settled
  {
    hide AtRest;
    DerivedSettles(s, d);
  }

  // ---- the others ---------------------------------------------------------------------------

  /** What the program settles itself. */
  lemma ForcedOutcome(s: State, turn: Turn, p: Id)
    requires Core(s, turn)
    ensures p in s.net.forced ==> p in s.ledger.settled && s.ledger.settled[p] == s.net.forced[p]
    ensures p in s.ledger.settled && p !in s.net.defs ==> p in s.net.forced
  {
    hide Stacked, Placed, Stages, Awake, CalledOnce;
    if p in s.ledger.settled {
      WhyAllowed(s, turn, p);
    }
  }

  /** The results of a join stand where its inputs stand. */
  lemma JoinOutcome(s: State, turn: Turn, g: Id)
    requires Core(s, turn) && g in s.ledger.settled && g !in s.net.forced
    requires g in s.net.defs && s.net.defs[g].Join?
    ensures var inputs := s.net.defs[g].inputs;
      && s.ledger.settled[g].Resolved? && s.ledger.settled[g].value.List?
      && |s.ledger.settled[g].value.items| == |inputs|
      && forall i :: 0 <= i < |inputs| ==>
           && inputs[i] in s.ledger.settled
           && s.ledger.settled[inputs[i]] == Resolved(s.ledger.settled[g].value.items[i])
  {
    WhyAllowed(s, turn, g);
  }

  /** An any-promise has the value of one of its inputs, which resolved before it. */
  lemma AnyOutcome(s: State, turn: Turn, g: Id)
    requires Core(s, turn) && g in s.ledger.settled && g !in s.net.forced
    requires g in s.net.defs && s.net.defs[g].Any?
    ensures exists q ::
      && q in s.net.defs[g].inputs
      && q in s.ledger.settled && s.ledger.settled[q].Resolved? && s.ledger.settled[g] == s.ledger.settled[q]
      && q in s.ledger.rank && g in s.ledger.rank && s.ledger.rank[q] < s.ledger.rank[g]
  {
    WhyAllowed(s, turn, g);
    var i := s.net.raced[g];
    assert s.net.defs[g].inputs[i] in s.net.defs[g].inputs;
  }
}
