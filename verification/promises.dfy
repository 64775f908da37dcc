// Promises: what they settle to, and the state of the scheduler that gets them there.

module Promises {
  import opened Base

  /** The address of a promise. */
  type Id = nat

  datatype Value = Plain(number: int) | Nil | List(items: seq<Value>)

  datatype Settlement = Resolved(value: Value) | Rejected(error: Value) {
    function Payload(): Value {
      if Resolved? then value else error
    }
  }

  /** A handler is user code, or one of the closures made by join and any. */
  datatype Handler = User(code: nat) | Slot(group: Id, index: nat) | First(group: Id, index: nat)

  /** How user code ends: a plain value, a promise, a thrown error, or a failed call. */
  datatype Reply = Returned(value: Value) | Adopted(promise: Id) | Threw(error: Value) | Failed

  type Code = (nat, Value) -> Reply

  /** A `PromiseThenClosure`: the promise it settles and the handlers it still has. */
  datatype Closure = Closure(target: Id, onResolve: Option<Handler>, onReject: Option<Handler>) {
    function For(x: Settlement): Option<Handler> {
      if x.Resolved? then onResolve else onReject
    }
  }

  /** Where a promise comes from.  `slots` are the promises that join and any make by
      calling `then` on their inputs. */
  datatype Def =
    | Source
    | Derived(parent: Id, onResolve: Option<Handler>, onReject: Option<Handler>)
    | Join(inputs: seq<Id>, slots: seq<Id>)
    | Any(inputs: seq<Id>, slots: seq<Id>)

  /** The closure of a derived promise: not run yet, passing on another promise's
      settlement, or gone. */
  datatype Stage = Fresh | Following(promise: Id) | Finished

  datatype Storage = Storage(stored: map<nat, Value>, left: int, total: int)

  /** What the program has asked for: the promises it made, those it settled itself, how
      its handlers reply, and which input each any-promise took. */
  datatype Net = Net(code: Code, defs: map<Id, Def>, forced: map<Id, Settlement>, raced: map<Id, nat>) {
    function Def(p: Id): Def {
      if p in defs then defs[p] else Source
    }
  }

  /** The settlements, ___resolved and ___rejected, and the order in which they came. */
  datatype Ledger = Ledger(settled: map<Id, Settlement>, rank: map<Id, nat>, clock: nat)

  // ---- the meaning of a network ----------------------------------------------------

  datatype Reaction = Settles(outcome: Settlement) | Follows(promise: Id) | Nothing

  /** What a closure with handler `f` does with settlement `x`. */
  function React(code: Code, f: Option<Handler>, x: Settlement): Reaction {
    match f
    case None => Settles(x)
    case Some(User(k)) =>
      (match code(k, x.Payload())
       case Returned(v) => Settles(Resolved(v))
       case Threw(e) => Settles(Rejected(e))
       case Adopted(q) => Follows(q)
       case Failed => Nothing)
    case Some(_) => Settles(Resolved(Nil))
  }

  function Chosen(d: Def, x: Settlement): Option<Handler>
    requires d.Derived?
  {
    if x.Resolved? then d.onResolve else d.onReject
  }

  function ResolvedValue(x: Option<Settlement>): Value {
    if x.Some? && x.value.Resolved? then x.value.value else Nil
  }

  /** The settlement of `p` by definition: no queue and no order, only what the program
      settled, what handlers reply and who follows whom, to depth `n`. */
  ghost function Meaning(net: Net, p: Id, n: nat): Option<Settlement>
    decreases n
  {
    if n == 0 then None
    else if p in net.forced then Some(net.forced[p])
    else match net.Def(p)
      case Source => None
      case Derived(q, _, _) =>
        (match Meaning(net, q, n - 1)
         case None => None
         case Some(x) =>
           match React(net.code, Chosen(net.Def(p), x), x)
           case Settles(z) => Some(z)
           case Follows(t) => Meaning(net, t, n - 1)
           case Nothing => None)
      case Join(inputs, _) =>
        if forall i :: 0 <= i < |inputs| ==> IsResolved(Meaning(net, inputs[i], n - 1))
        then Some(Resolved(List(seq(|inputs|,
          i requires 0 <= i < |inputs| => ResolvedValue(Meaning(net, inputs[i], n - 1))))))
        else None
      case Any(inputs, _) =>
        if p in net.raced && net.raced[p] < |inputs| && IsResolved(Meaning(net, inputs[net.raced[p]], n - 1))
        then Meaning(net, inputs[net.raced[p]], n - 1)
        else None
  }

  predicate IsResolved(x: Option<Settlement>) {
    x.Some? && x.value.Resolved?
  }

  lemma {:induction false} MeaningGrows(net: Net, p: Id, n: nat, m: nat)
    requires n <= m && Meaning(net, p, n).Some?
    ensures Meaning(net, p, m) == Meaning(net, p, n)
    decreases n, 1
  {
    if p !in net.forced {
      match net.Def(p)
      case Source =>
      case Derived(_, _, _) =>
        DerivedGrows(net, p, n, m);
      case Join(inputs, _) =>
        JoinGrows(net, p, n, m);
      case Any(inputs, _) =>
        MeaningGrows(net, inputs[net.raced[p]], n - 1, m - 1);
    }
  }

  lemma {:induction false} DerivedGrows(net: Net, p: Id, n: nat, m: nat)
    requires 0 < n <= m && p !in net.forced && net.Def(p).Derived? && Meaning(net, p, n).Some?
    ensures Meaning(net, p, m) == Meaning(net, p, n)
    decreases n, 0
  {
    var q := net.Def(p).parent;
    MeaningGrows(net, q, n - 1, m - 1);
    var x := Meaning(net, q, n - 1).value;
    var r := React(net.code, Chosen(net.Def(p), x), x);
    if r.Follows? {
      MeaningGrows(net, r.promise, n - 1, m - 1);
    }
  }

  lemma {:induction false} JoinGrows(net: Net, p: Id, n: nat, m: nat)
    requires 0 < n <= m && p !in net.forced && net.Def(p).Join? && Meaning(net, p, n).Some?
    ensures Meaning(net, p, m) == Meaning(net, p, n)
    decreases n, 0
  {
    var inputs := net.Def(p).inputs;
    forall i | 0 <= i < |inputs| ensures Meaning(net, inputs[i], m - 1) == Meaning(net, inputs[i], n - 1) {
      assert IsResolved(Meaning(net, inputs[i], n - 1));
      MeaningGrows(net, inputs[i], n - 1, m - 1);
    }
    assert forall i :: 0 <= i < |inputs| ==> IsResolved(Meaning(net, inputs[i], n - 1));
    assert forall i :: 0 <= i < |inputs| ==> IsResolved(Meaning(net, inputs[i], m - 1));
    assert Meaning(net, p, m).value.value.items == Meaning(net, p, n).value.value.items;
  }

  // ---- why a promise is settled ----------------------------------------------------

  ghost predicate Before(l: Ledger, q: Id, clock: nat) {
    q in l.settled && q in l.rank && l.rank[q] < clock
  }

  /** The rules of `Meaning` allow `p` to settle to `z`, given what settled before `clock`. */
  ghost predicate Allowed(net: Net, l: Ledger, p: Id, z: Settlement, clock: nat) {
    if p in net.forced then z == net.forced[p]
    else match net.Def(p)
      case Source => false
      case Derived(q, _, _) =>
        Before(l, q, clock) &&
        (match React(net.code, Chosen(net.Def(p), l.settled[q]), l.settled[q])
         case Settles(y) => z == y
         case Follows(t) => Before(l, t, clock) && z == l.settled[t]
         case Nothing => false)
      case Join(inputs, _) =>
        && z.Resolved? && z.value.List? && |z.value.items| == |inputs|
        && forall i :: 0 <= i < |inputs| ==>
             Before(l, inputs[i], clock) && l.settled[inputs[i]] == Resolved(z.value.items[i])
      case Any(inputs, _) =>
        && z.Resolved? && p in net.raced && net.raced[p] < |inputs|
        && Before(l, inputs[net.raced[p]], clock) && z == l.settled[inputs[net.raced[p]]]
  }

  ghost predicate Justified(net: Net, l: Ledger) {
    && l.settled.Keys == l.rank.Keys && net.forced.Keys <= l.settled.Keys
    && forall p :: p in l.settled ==> l.rank[p] < l.clock && Allowed(net, l, p, l.settled[p], l.rank[p])
  }

  /** A settled promise is settled to its meaning. */
  lemma {:induction false} SettledMeans(net: Net, l: Ledger, p: Id)
    requires Justified(net, l) && p in l.settled
    ensures Meaning(net, p, l.rank[p] + 1) == Some(l.settled[p])
    decreases l.rank[p], 1
  {
    var n, z := l.rank[p], l.settled[p];
    assert Allowed(net, l, p, z, n);
    if p !in net.forced {
      match net.Def(p)
      case Source =>
      case Derived(q, _, _) =>
        MeansBefore(net, l, q, n);
        var r := React(net.code, Chosen(net.Def(p), l.settled[q]), l.settled[q]);
        if r.Follows? {
          MeansBefore(net, l, r.promise, n);
        }
      case Join(inputs, _) =>
        forall i | 0 <= i < |inputs| ensures Meaning(net, inputs[i], n) == Some(Resolved(z.value.items[i])) {
          MeansBefore(net, l, inputs[i], n);
        }
        assert Meaning(net, p, n + 1).value.value.items == z.value.items;
      case Any(inputs, _) =>
        MeansBefore(net, l, inputs[net.raced[p]], n);
    }
  }

  lemma {:induction false} MeansBefore(net: Net, l: Ledger, q: Id, n: nat)
    requires Justified(net, l) && Before(l, q, n)
    ensures Meaning(net, q, n) == Some(l.settled[q])
    decreases n, 0
  {
    hide Meaning, Justified, Allowed;
    SettledMeans(net, l, q);
    MeaningGrows(net, q, l.rank[q] + 1, n);
  }
}
