// Dynamically typed values and the references they hold.

/** A value as `di_type` and `di_value` describe it, reduced to the references
    inside it: arrays, tuples and variants nest, everything else is a leaf. */
module Values {
  /** The address of an object. */
  datatype Ref = Ref(address: nat)

  datatype Value =
    | Nil                                  // no value, of size zero
    | Plain                                // numbers, strings, pointers
    | Object(obj: Ref)
    | EmptyObject(obj: Ref)
    | WeakObject(obj: Ref)
    | Array(elems: seq<Value>)
    | Tuple(elems: seq<Value>)
    | Variant(inner: Value)

  /** The references held by a value, by kind.  `scanned` are the strong
      references the cycle collector follows, `hidden` the strong references it
      does not (EMPTY_OBJECT), `weak` the weak ones. */
  datatype Refs = Refs(scanned: multiset<Ref>, hidden: multiset<Ref>, weak: multiset<Ref>) {
    function Strong(): multiset<Ref> { scanned + hidden }

    function Plus(other: Refs): Refs {
      Refs(scanned + other.scanned, hidden + other.hidden, weak + other.weak)
    }
  }

  lemma PlusLaws(a: Refs, b: Refs, c: Refs)
    ensures a.Plus(b.Plus(c)) == a.Plus(b).Plus(c) == b.Plus(a.Plus(c))
    ensures a.Plus(NoRefs()) == a == NoRefs().Plus(a)
  {
  }

  function NoRefs(): Refs {
    Refs(multiset{}, multiset{}, multiset{})
  }

  function RefsOf(v: Value): Refs
    decreases v, 0
  {
    match v
    case Nil => NoRefs()
    case Plain => NoRefs()
    case Object(o) => Refs(multiset{o}, multiset{}, multiset{})
    case EmptyObject(o) => Refs(multiset{}, multiset{o}, multiset{})
    case WeakObject(o) => Refs(multiset{}, multiset{}, multiset{o})
    case Array(elems) => RefsOfAll(elems)
    case Tuple(elems) => RefsOfAll(elems)
    case Variant(inner) => RefsOf(inner)
  }

  function RefsOfAll(vs: seq<Value>): Refs
    decreases vs, 1
  {
    if vs == [] then NoRefs() else RefsOf(vs[0]).Plus(RefsOfAll(vs[1..]))
  }

  /** What the leaves hold, and what the containers pass on. */
  lemma RefsOfIs(v: Value)
    ensures v.Nil? || v.Plain? ==> RefsOf(v) == NoRefs()
    ensures v.Object? ==> RefsOf(v) == Refs(multiset{v.obj}, multiset{}, multiset{})
    ensures v.EmptyObject? ==> RefsOf(v) == Refs(multiset{}, multiset{v.obj}, multiset{})
    ensures v.WeakObject? ==> RefsOf(v) == Refs(multiset{}, multiset{}, multiset{v.obj})
    ensures v.Array? || v.Tuple? ==> RefsOf(v) == RefsOfAll(v.elems)
    ensures v.Variant? ==> RefsOf(v) == RefsOf(v.inner)
  {
  }

  /** One step along a list: what is held from index `i` on. */
  lemma RefsOfRest(vs: seq<Value>, i: nat)
    requires i <= |vs|
    ensures i == 0 ==> vs[i..] == vs
    ensures i < |vs| ==> RefsOfAll(vs[i..]) == RefsOf(vs[i]).Plus(RefsOfAll(vs[i + 1..]))
    ensures i == |vs| ==> RefsOfAll(vs[i..]) == NoRefs()
  {
    assert i < |vs| ==> vs[i..][1..] == vs[i + 1..];
  }

  datatype Member = Member(name: string, value: Value)

  function Data(members: seq<Member>): (vs: seq<Value>)
    ensures |vs| == |members|
  {
    seq(|members|, i requires 0 <= i < |members| => members[i].value)
  }

  /** All references held by the members of one object. */
  function Holds(members: seq<Member>): Refs {
    RefsOfAll(Data(members))
  }

  /** The member table without its entry `i`. */
  function Without(members: seq<Member>, i: nat): seq<Member>
    requires i < |members|
  {
    members[..i] + members[i + 1..]
  }

  lemma RefsOfConcat(a: seq<Value>, b: seq<Value>)
    ensures RefsOfAll(a + b) == RefsOfAll(a).Plus(RefsOfAll(b))
    ensures RefsOfAll(a + b).scanned == RefsOfAll(a).scanned + RefsOfAll(b).scanned
    ensures RefsOfAll(a + b).hidden == RefsOfAll(a).hidden + RefsOfAll(b).hidden
    ensures RefsOfAll(a + b).weak == RefsOfAll(a).weak + RefsOfAll(b).weak
    ensures RefsOfAll([]) == Refs(multiset{}, multiset{}, multiset{})
    ensures |a| == 1 ==> RefsOfAll(a) == RefsOf(a[0])
  {
    if a == [] {
      assert a + b == b;
      PlusLaws(RefsOfAll(b), NoRefs(), NoRefs());
    } else {
      assert (a + b)[1..] == a[1..] + b;
      RefsOfConcat(a[1..], b);
      PlusLaws(RefsOf(a[0]), RefsOfAll(a[1..]), RefsOfAll(b));
    }
  }

  /** What the table holds is what its entry `i` holds and what the others hold. */
  lemma HoldsWithout(members: seq<Member>, i: nat)
    requires i < |members|
    ensures Holds(members) == RefsOf(members[i].value).Plus(Holds(Without(members, i)))
  {
    var vs := Data(members);
    assert vs == vs[..i] + vs[i..] && vs[i..] == [vs[i]] + vs[i + 1..];
    assert Data(Without(members, i)) == vs[..i] + vs[i + 1..];
    RefsOfConcat(vs[..i], vs[i..]);
    RefsOfConcat([vs[i]], vs[i + 1..]);
    RefsOfConcat(vs[..i], vs[i + 1..]);
    RefsOfRest([vs[i]], 0);
    RefsOfRest([vs[i]], 1);
    PlusLaws(RefsOf(vs[i]), NoRefs(), NoRefs());
    PlusLaws(RefsOfAll(vs[..i]), RefsOf(vs[i]), RefsOfAll(vs[i + 1..]));
  }
}
