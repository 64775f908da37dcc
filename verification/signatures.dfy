// Values against D-Bus signatures: the signature check and the generator.

module Signatures {
  import opened Grammar

  datatype Type = Bool | Nint | Nuint | Int | Uint | Float | String | StringLiteral

  /** A deai value as far as its D-Bus signature depends on it.  `Other` is nil, a pointer or
      any kind of object. */
  datatype Value =
    | Simple(kind: Type)
    | Array(elems: seq<Value>)
    | Tuple(items: seq<Value>)
    | Boxed(inner: Value)
    | Other

  /** di_type_to_dbus_basic, for the types with a basic code. */
  function Code(t: Type): char {
    match t
    case Bool => 'b'
    case Int => 'x'
    case Uint => 't'
    case Nint => 'i'
    case Nuint => 'u'
    case Float => 'd'
    case String => 's'
    case StringLiteral => 's'
  }

  datatype Compatibility = Yes | No | AssertFails

  /** is_basic_type_compatible */
  function Compatible(t: Type, code: char): Compatibility {
    if code == 'b' then (if t.Bool? then Yes else No)
    else if code in "nixqut" then (if t.Uint? || t.Int? || t.Nint? || t.Nuint? then Yes else No)
    else if code == 'd' then (if t.Float? then Yes else No)
    else if code in "so" then (if t.String? then Yes else No)
    else if code in "arv" then AssertFails
    else No
  }

  /** The character at a position of a C string: NUL at its end. */
  function First(s: string): char {
    if s == "" then '\0' else s[0]
  }

  /** `Aborts`: an assert fails or the first element of an empty array is read. */
  datatype Check = Rest(rest: string) | Mismatch | Aborts

  // ---- what the signature check computes ----------------------------------------------------------

  /** verify_type_signature */
  function Verified(v: Value, s: string): Check
    decreases v, 1
  {
    if v.Simple? then
      match Compatible(v.kind, First(s))
      case Yes => Rest(s[1..])
      case No => Mismatch
      case AssertFails => Aborts
    else if First(s) == 'v' then Rest(s[1..])
    else if v.Boxed? then Verified(v.inner, s)
    else if v.Array? && First(s) == 'a' then
      if v.elems == [] then Aborts else VerifiedSame(v.elems, s[1..])
    else if v.Array? && First(s) == '(' then VerifiedFields(v.elems, s[1..])
    else if v.Tuple? && First(s) == '(' then VerifiedFields(v.items, s[1..])
    else Mismatch
  }

  /** The elements, each against a part of the signature of its own, and then the parenthesis. */
  function VerifiedFields(vs: seq<Value>, s: string): Check
    decreases vs, 0
  {
    if vs == [] then (if First(s) == ')' then Rest(s[1..]) else Mismatch)
    else match Verified(vs[0], s)
      case Rest(next) => VerifiedFields(vs[1..], next)
      case other => other
  }

  /** The elements, all against the same part of the signature; simple ones by the first only. */
  function VerifiedSame(vs: seq<Value>, s: string): Check
    requires vs != []
    decreases vs, 0
  {
    var ret := Verified(vs[0], s);
    if ret.Aborts? || vs[0].Simple? || vs[0].Other? then ret else VerifiedLike(vs[1..], s, ret)
  }

  function VerifiedLike(vs: seq<Value>, s: string, ret: Check): Check
    decreases vs, 0
  {
    if vs == [] then ret
    else
      var ret2 := Verified(vs[0], s);
      if ret2.Aborts? then Aborts
      else if ret2.Mismatch? || ret2 != ret then Mismatch
      else VerifiedLike(vs[1..], s, ret)
  }

  // ---- what it means ------------------------------------------------------------------------

  /** All elements of an array have the same deai type. */
  predicate SameKind(v: Value, w: Value) {
    match v
    case Simple(t) => w == Simple(t)
    case Array(_) => w.Array?
    case Tuple(_) => w.Tuple?
    case Boxed(_) => w.Boxed?
    case Other => w.Other?
  }

  ghost predicate Typed(v: Value) {
    match v
    case Simple(_) => true
    case Array(elems) => forall e :: e in elems ==> Typed(e) && SameKind(elems[0], e)
    case Tuple(items) => forall e :: e in items ==> Typed(e)
    case Boxed(w) => Typed(w)
    case Other => true
  }

  /** A value of a type, by recursion over the type and not over its text. */
  ghost predicate Fits(v: Value, sig: Sig)
    decreases v
  {
    match v
    case Simple(t) => sig.Basic? && Compatible(t, sig.code) == Yes
    case Boxed(w) => sig.Variant? || Fits(w, sig)
    case Array(elems) =>
      sig.Variant?
      || (sig.ArrayOf? && elems != [] && forall k :: 0 <= k < |elems| ==> Fits(elems[k], sig.elem))
      || (sig.Struct? && |elems| == |sig.fields| && forall k :: 0 <= k < |elems| ==> Fits(elems[k], sig.fields[k]))
    case Tuple(items) =>
      sig.Variant?
      || (sig.Struct? && |items| == |sig.fields| && forall k :: 0 <= k < |items| ==> Fits(items[k], sig.fields[k]))
    case Other => sig.Variant?
  }

  lemma PrintFirst(sig: Sig, x: string)
    requires Proper(sig)
    ensures Print(sig) + x != "" && First(Print(sig) + x) == Print(sig)[0]
    ensures (Print(sig) + x)[1..] == Print(sig)[1..] + x
  {
    PrintStarts(sig);
  }

  /** The signature check consumes exactly the text of the type if the value fits, and never
      returns a rest if it does not; what follows the text does not matter. */
  lemma {:induction false} VerifiedExact(v: Value, sig: Sig, x: string)
    requires Proper(sig) && Typed(v)
    ensures Fits(v, sig) ==> Verified(v, Print(sig) + x) == Rest(x)
    ensures !Fits(v, sig) ==> !Verified(v, Print(sig) + x).Rest?
    decreases v, 1
  {
    PrintStarts(sig);
    PrintFirst(sig, x);
    match v
    case Simple(t) =>
    case Other =>
    case Boxed(w) =>
      VerifiedExact(w, sig, x);
    case Array(elems) =>
      if sig.ArrayOf? && elems != [] {
        assert (Print(sig) + x)[1..] == Print(sig.elem) + x;
        VerifiedSameExact(elems, sig.elem, x);
      } else if sig.Struct? {
        assert (Print(sig) + x)[1..] == PrintAll(sig.fields) + (")" + x);
        VerifiedFieldsExact(elems, sig.fields, x);
      }
    case Tuple(items) =>
      if sig.Struct? {
        assert (Print(sig) + x)[1..] == PrintAll(sig.fields) + (")" + x);
        VerifiedFieldsExact(items, sig.fields, x);
      }
  }

  ghost predicate FitsAll(vs: seq<Value>, sigs: seq<Sig>) {
    |vs| == |sigs| && forall k :: 0 <= k < |vs| ==> Fits(vs[k], sigs[k])
  }

  lemma {:induction false} VerifiedFieldsExact(vs: seq<Value>, sigs: seq<Sig>, x: string)
    requires ProperAll(sigs) && forall e :: e in vs ==> Typed(e)
    ensures FitsAll(vs, sigs) ==> VerifiedFields(vs, PrintAll(sigs) + (")" + x)) == Rest(x)
    ensures !FitsAll(vs, sigs) ==> !VerifiedFields(vs, PrintAll(sigs) + (")" + x)).Rest?
    decreases vs, 0
  {
    PrintAllSplit(sigs, ")" + x);
    if vs == [] {
      if sigs != [] {
        PrintFirst(sigs[0], PrintAll(sigs[1..]) + (")" + x));
        PrintStarts(sigs[0]);
      }
    } else if sigs != [] {
      VerifiedExact(vs[0], sigs[0], PrintAll(sigs[1..]) + (")" + x));
      VerifiedFieldsExact(vs[1..], sigs[1..], x);
      FitsAllSplit(vs, sigs);
    } else {
      NoValueAtClose(vs[0], x);
    }
  }

  lemma FitsAllSplit(vs: seq<Value>, sigs: seq<Sig>)
    requires vs != [] && sigs != []
    ensures FitsAll(vs, sigs) <==> Fits(vs[0], sigs[0]) && FitsAll(vs[1..], sigs[1..])
  {
    if Fits(vs[0], sigs[0]) && FitsAll(vs[1..], sigs[1..]) {
      forall k | 0 <= k < |vs| ensures Fits(vs[k], sigs[k]) {
        if k > 0 {
          assert Fits(vs[1..][k - 1], sigs[1..][k - 1]);
        }
      }
    }
  }

  /** No value is read where a parenthesis closes. */
  lemma {:induction false} NoValueAtClose(v: Value, x: string)
    ensures !Verified(v, ")" + x).Rest?
  {
    assert First(")" + x) == ')';
    if v.Boxed? {
      NoValueAtClose(v.inner, x);
    }
  }

  lemma {:induction false} VerifiedSameExact(vs: seq<Value>, sig: Sig, x: string)
    requires vs != [] && Proper(sig) && forall e :: e in vs ==> Typed(e) && SameKind(vs[0], e)
    ensures (forall k :: 0 <= k < |vs| ==> Fits(vs[k], sig)) ==> VerifiedSame(vs, Print(sig) + x) == Rest(x)
    ensures !(forall k :: 0 <= k < |vs| ==> Fits(vs[k], sig)) ==> !VerifiedSame(vs, Print(sig) + x).Rest?
    decreases vs, 0
  {
    VerifiedExact(vs[0], sig, x);
    if vs[0].Simple? || vs[0].Other? {
      forall k | 0 <= k < |vs| ensures vs[k] == vs[0] {
        assert vs[k] in vs;
      }
    } else {
      var ret := Verified(vs[0], Print(sig) + x);
      if !ret.Aborts? {
        VerifiedLikeExact(vs[1..], sig, x, ret);
      }
      assert vs == [vs[0]] + vs[1..];
    }
  }

  lemma {:induction false} VerifiedLikeExact(vs: seq<Value>, sig: Sig, x: string, ret: Check)
    requires Proper(sig) && (forall e :: e in vs ==> Typed(e)) && (ret.Rest? ==> ret == Rest(x)) && !ret.Aborts?
    ensures ret == Rest(x) && (forall k :: 0 <= k < |vs| ==> Fits(vs[k], sig)) ==>
      VerifiedLike(vs, Print(sig) + x, ret) == Rest(x)
    ensures !(ret == Rest(x) && forall k :: 0 <= k < |vs| ==> Fits(vs[k], sig)) ==>
      !VerifiedLike(vs, Print(sig) + x, ret).Rest?
    decreases vs, 0
  {
    if vs != [] {
      VerifiedExact(vs[0], sig, x);
      VerifiedLikeExact(vs[1..], sig, x, ret);
      assert vs == [vs[0]] + vs[1..];
    }
  }

  // ---- the signature check's loops ------------------------------------------------------------------

  /** verify_type_signature */
  method Verify(v: Value, s: string) returns (r: Check)
    ensures r == Verified(v, s)
    decreases v, 2
  {
    if v.Simple? {
      match Compatible(v.kind, First(s)) {
        case Yes => return Rest(s[1..]);
        case No => return Mismatch;
        case AssertFails => return Aborts;
      }
    }
    if First(s) == 'v' {
      return Rest(s[1..]);
    }
    if v.Boxed? {
      r := Verify(v.inner, s);
      return;
    }
    if First(s) == 'a' {
      if !v.Array? {
        return Mismatch;
      }
      if v.elems == [] {
        return Aborts;
      }
      r := VerifyElements(v.elems, s[1..]);
      return;
    }
    if First(s) == '(' {
      if v.Array? {
        r := VerifyFields(v.elems, s[1..]);
        return;
      }
      if v.Tuple? {
        r := VerifyFields(v.items, s[1..]);
        return;
      }
    }
    return Mismatch;
  }

  /** The branch of verify_type_signature for an array where an array is expected. */
  method VerifyElements(vs: seq<Value>, s: string) returns (r: Check)
    requires vs != []
    ensures r == VerifiedSame(vs, s)
    decreases vs, 1
  {
    var ret := Verify(vs[0], s);
    if ret.Aborts? {
      return ret;
    }
    if vs[0].Array? || vs[0].Tuple? || vs[0].Boxed? {
      assert vs[1..] == vs[1..][0..];
      for i := 1 to |vs|
        invariant VerifiedSame(vs, s) == VerifiedLike(vs[i..], s, ret)
      {
        assert vs[i..][0] == vs[i] && vs[i..][1..] == vs[i + 1..];
        var ret2 := Verify(vs[i], s);
        if ret2.Aborts? {
          return ret2;
        }
        if ret2.Mismatch? || ret2 != ret {
          return Mismatch;
        }
      }
    }
    return ret;
  }

  /** The branches for an array or a tuple where a struct is expected. */
  method VerifyFields(vs: seq<Value>, s: string) returns (r: Check)
    ensures r == VerifiedFields(vs, s)
    decreases vs, 1
  {
    var curr := s;
    assert vs[0..] == vs;
    for i := 0 to |vs|
      invariant VerifiedFields(vs, s) == VerifiedFields(vs[i..], curr)
    {
      assert vs[i..][0] == vs[i] && vs[i..][1..] == vs[i + 1..];
      var next := Verify(vs[i], curr);
      if !next.Rest? {
        return next;
      }
      curr := next.rest;
    }
    if First(curr) != ')' {
      return Mismatch;
    }
    return Rest(curr[1..]);
  }

  // ---- the generator --------------------------------------------------------------------------

  /** Basic types, non-empty arrays, tuples, and variants of these. */
  ghost predicate Plain(v: Value) {
    match v
    case Simple(_) => true
    case Array(elems) => elems != [] && forall e :: e in elems ==> Plain(e) && SameKind(elems[0], e)
    case Tuple(items) => forall e :: e in items ==> Plain(e)
    case Boxed(w) => Plain(w)
    case Other => false
  }

  lemma {:induction false} PlainTyped(v: Value)
    requires Plain(v)
    ensures Typed(v)
  {
    match v
    case Simple(_) =>
    case Array(elems) =>
      forall e | e in elems ensures Typed(e) { PlainTyped(e); }
    case Tuple(items) =>
      forall e | e in items ensures Typed(e) { PlainTyped(e); }
    case Boxed(w) => PlainTyped(w);
  }

  /** The type of a value: of an array, by its first element. */
  ghost function SigOf(v: Value): (sig: Sig)
    requires Plain(v)
    ensures Proper(sig)
    decreases v, 0
  {
    match v
    case Simple(t) => Basic(Code(t))
    case Array(elems) => ArrayOf(SigOf(elems[0]))
    case Tuple(items) => Struct(SigsOf(items))
    case Boxed(_) => Variant
  }

  ghost function SigsOf(vs: seq<Value>): (sigs: seq<Sig>)
    requires forall e :: e in vs ==> Plain(e)
    ensures ProperAll(sigs) && |sigs| == |vs| && forall k :: 0 <= k < |vs| ==> sigs[k] == SigOf(vs[k])
    decreases vs, 1
  {
    if vs == [] then [] else [SigOf(vs[0])] + SigsOf(vs[1..])
  }

  /** The type of a value with its variants looked through. */
  ghost function Bare(v: Value): (sig: Sig)
    requires Plain(v)
    decreases v, 0
  {
    match v
    case Simple(t) => Basic(Code(t))
    case Array(elems) => ArrayOf(Bare(elems[0]))
    case Tuple(items) => Struct(BareAll(items))
    case Boxed(w) => Bare(w)
  }

  ghost function BareAll(vs: seq<Value>): (sigs: seq<Sig>)
    requires forall e :: e in vs ==> Plain(e)
    ensures |sigs| == |vs| && forall k :: 0 <= k < |vs| ==> sigs[k] == Bare(vs[k])
    decreases vs, 1
  {
    if vs == [] then [] else [Bare(vs[0])] + BareAll(vs[1..])
  }

  /** Every variant outside of another holds what has a type of one character. */
  ghost predicate Snug(v: Value)
    requires Plain(v)
  {
    match v
    case Simple(_) => true
    case Array(elems) => Snug(elems[0])
    case Tuple(items) => forall e :: e in items ==> Snug(e)
    case Boxed(w) => |Print(Bare(w))| == 1
  }

  /** A variant's own type is one character, and what it holds may have a longer one. */
  lemma {:induction false} Room(v: Value)
    requires Plain(v)
    ensures 0 < |Print(SigOf(v))| <= |Print(Bare(v))|
    ensures |Print(SigOf(v))| == |Print(Bare(v))| <==> Snug(v)
    decreases v, 0
  {
    match v
    case Simple(_) =>
    case Array(elems) => Room(elems[0]);
    case Tuple(items) => RoomAll(items);
    case Boxed(w) => Room(w);
  }

  lemma {:induction false} RoomAll(vs: seq<Value>)
    requires forall e :: e in vs ==> Plain(e)
    ensures |PrintAll(SigsOf(vs))| <= |PrintAll(BareAll(vs))|
    ensures |PrintAll(SigsOf(vs))| == |PrintAll(BareAll(vs))| <==> forall e :: e in vs ==> Snug(e)
    decreases vs, 1
  {
    if vs != [] {
      Room(vs[0]);
      RoomAll(vs[1..]);
      assert vs == [vs[0]] + vs[1..];
    }
  }

  /** The value of a DI_TYPE constant, as far as an array can have it. */
  function ElemType(v: Value): nat {
    match v
    case Simple(Bool) => 3
    case Simple(Nint) => 4
    case Simple(Nuint) => 5
    case Simple(Int) => 6
    case Simple(Uint) => 7
    case Simple(Float) => 8
    case Simple(String) => 12
    case Simple(StringLiteral) => 13
    case Array(_) => 14
    case Tuple(_) => 15
    case Boxed(_) => 16
    case Other => 10
  }

  /** Arrays are not empty and their elements have the same deai type. */
  ghost predicate Listed(v: Value) {
    match v
    case Simple(_) => true
    case Array(elems) => elems != [] && forall e :: e in elems ==> Listed(e) && SameKind(elems[0], e)
    case Tuple(items) => forall e :: e in items ==> Listed(e)
    case Boxed(w) => Listed(w)
    case Other => true
  }

  lemma {:induction false} PlainListed(v: Value)
    requires Plain(v)
    ensures Listed(v) && !Untyped(v)
  {
    match v
    case Simple(_) =>
    case Array(elems) =>
      forall e | e in elems ensures Listed(e) { PlainListed(e); }
    case Tuple(items) =>
      forall e | e in items ensures Listed(e) && !Untyped(e) { PlainListed(e); }
    case Boxed(w) => PlainListed(w);
  }

  /** Something in it has no D-Bus type, and it is in no array. */
  ghost predicate Untyped(v: Value) {
    match v
    case Simple(_) => false
    case Array(_) => false
    case Tuple(items) => exists e :: e in items && Untyped(e)
    case Boxed(w) => Untyped(w)
    case Other => true
  }

  /** The computed length, and -1 if there is none. */
  ghost function Computed(v: Value): (n: int)
    requires Listed(v)
    ensures if Untyped(v) then n == -1 else n >= 0
    decreases v, 0
  {
    match v
    case Simple(_) => 1
    case Array(elems) => 1 + Computed(elems[0])
    case Tuple(items) => (var n := ComputedAll(items); if n < 0 then n else n + 2)
    case Boxed(w) => Computed(w)
    case Other => -1
  }

  ghost function ComputedAll(vs: seq<Value>): (n: int)
    requires forall e :: e in vs ==> Listed(e)
    ensures if exists e :: e in vs && Untyped(e) then n == -1 else n >= 0
    decreases vs, 1
  {
    if vs == [] then 0
    else
      assert vs == [vs[0]] + vs[1..];
      var a, b := Computed(vs[0]), ComputedAll(vs[1..]);
      if a < 0 || b < 0 then -1 else a + b
  }

  lemma {:induction false} ComputedBare(v: Value)
    requires Plain(v) && Listed(v)
    ensures Computed(v) == |Print(Bare(v))|
    decreases v, 0
  {
    match v
    case Simple(_) =>
    case Array(elems) => ComputedBare(elems[0]);
    case Tuple(items) => ComputedAllBare(items);
    case Boxed(w) => ComputedBare(w);
  }

  lemma {:induction false} ComputedAllBare(vs: seq<Value>)
    requires forall e :: e in vs ==> Plain(e) && Listed(e)
    ensures ComputedAll(vs) == |PrintAll(BareAll(vs))|
    decreases vs, 1
  {
    if vs != [] {
      ComputedBare(vs[0]);
      ComputedAllBare(vs[1..]);
    }
  }

  /** What the computed length means. */
  lemma LengthMeans(v: Value)
    requires Listed(v)
    ensures Plain(v) ==> Computed(v) == |Print(Bare(v))|
    ensures Plain(v) ==> Computed(v) >= |Print(SigOf(v))| && (Computed(v) == |Print(SigOf(v))| <==> Snug(v))
    ensures v.Array? && Untyped(v.elems[0]) ==> Computed(v) == 0
  {
    hide Snug, SigOf, Plain, Bare, Print, Untyped;
    if Plain(v) {
      Room(v);
      PlainListed(v);
      ComputedBare(v);
    }
  }

  /** type_signature_length_of_di_value.  The loop over an array looks at its first element
      again and again, as often as the number of its element type says; that the element has
      no length is not passed on. */
  method Length(v: Value) returns (r: int)
    requires Listed(v)
    ensures r == Computed(v)
    ensures Plain(v) ==> r == |Print(Bare(v))|
    ensures Plain(v) ==> r >= |Print(SigOf(v))| && (r == |Print(SigOf(v))| <==> Snug(v))
    ensures if Untyped(v) then r == -1 else r >= 0
    ensures v.Array? && Untyped(v.elems[0]) ==> r == 0
    decreases v, 0
  {
    hide Untyped, Snug, SigOf, Plain, Bare, Print;
    LengthMeans(v);
    if v.Simple? {
      return 1;
    }
    if v.Array? {
      var v0 := Length(v.elems[0]);
      for i := 1 to ElemType(v.elems[0]) {
        var w := Length(v.elems[0]);
        if w != v0 {
          return -1;
        }
      }
      return 1 + v0;
    }
    if v.Tuple? {
      r := 0;
      assert v.items[0..] == v.items;
      for i := 0 to |v.items|
        invariant r >= 0 && ComputedAll(v.items) == Added(r, ComputedAll(v.items[i..]))
      {
        assert v.items[i..][0] == v.items[i] && v.items[i..][1..] == v.items[i + 1..];
        var tmp := Length(v.items[i]);
        if tmp < 0 {
          return tmp;
        }
        r := r + tmp;
      }
      return r + 2;
    }
    if v.Boxed? {
      r := Length(v.inner);
      return;
    }
    return -1;
  }

  function Added(a: int, b: int): int {
    if b < 0 then -1 else a + b
  }

  lemma SigsNext(vs: seq<Value>, i: nat)
    requires i < |vs| && forall e :: e in vs ==> Plain(e)
    ensures SigsOf(vs[..i + 1]) == SigsOf(vs[..i]) + [SigOf(vs[i])]
  {
    hide Plain, SigOf;
  }

  lemma SigsMore(vs: seq<Value>, i: nat)
    requires i < |vs| && forall e :: e in vs ==> Plain(e)
    ensures SigsOf(vs[..i + 1]) == SigsOf(vs[..i]) + [SigOf(vs[i])]
    ensures PrintAll(SigsOf(vs[..i + 1])) == PrintAll(SigsOf(vs[..i])) + Print(SigOf(vs[i]))
    ensures Trees(SigsOf(vs[..i + 1])) == Trees(SigsOf(vs[..i])) + [Tree(SigOf(vs[i]))]
  {
    hide Plain, SigOf, SigsOf, Print, PrintAll, Tree, Trees;
    SigsNext(vs, i);
    PrintAllMore(SigsOf(vs[..i]), SigOf(vs[i]));
  }

  /** `Failed`: nchild is -EINVAL.  `Undone`: the signature check has aborted. */
  datatype Generated = Made(node: Node) | Failed | Undone

  /** A value of its own type: the elements of its arrays fit the first one's type, and no
      string literals are in it but in variants. */
  ghost predicate Uniform(v: Value)
    requires Plain(v)
  {
    Fits(v, SigOf(v))
  }

  /** Whether the generator makes a signature of `v`. */
  ghost predicate Makes(v: Value)
    requires Plain(v)
  {
    match v
    case Simple(_) => true
    case Array(_) => Uniform(v)
    case Tuple(items) => forall e :: e in items ==> Makes(e)
    case Boxed(_) => true
  }

  /** No string literal stands alone or in nested tuples. */
  ghost predicate NoLiterals(v: Value) {
    match v
    case Simple(t) => !t.StringLiteral?
    case Tuple(items) => forall e :: e in items ==> NoLiterals(e)
    case _ => true
  }

  /** What is generated passes the check unless a string literal is in the way. */
  lemma {:induction false} UniformMakes(v: Value)
    requires Plain(v)
    ensures Uniform(v) <==> Makes(v) && NoLiterals(v)
  {
    match v
    case Simple(_) =>
    case Array(_) =>
    case Boxed(_) =>
    case Tuple(items) =>
      forall k | 0 <= k < |items| ensures Fits(items[k], SigOf(items[k])) <==> Makes(items[k]) && NoLiterals(items[k]) {
        UniformMakes(items[k]);
      }
      assert Uniform(v) <==> forall k :: 0 <= k < |items| ==> Fits(items[k], SigOf(items[k]));
  }

  ghost function Size(v: Value): nat
    requires Plain(v)
  {
    |Print(SigOf(v))|
  }

  lemma UniformArray(v: Value)
    requires Plain(v) && v.Array?
    ensures Uniform(v) ==> Makes(v.elems[0])
    ensures Size(v) == 1 + Size(v.elems[0]) && Size(v.elems[0]) > 0
  {
    PrintStarts(SigOf(v.elems[0]));
    UniformMakes(v.elems[0]);
  }

  /** If the generator fails on the first element, the signature check fails on the array. */
  lemma FirstFails(v: Value, s: string)
    requires Plain(v) && v.Array? && s != "" && s[0] == 'a' && !Verified(v.elems[0], s[1..]).Rest?
    ensures !Verified(v, s).Rest?
  {
    var ret := Verified(v.elems[0], s[1..]);
    if !ret.Aborts? {
      LikeFails(v.elems[1..], s[1..], ret);
    }
  }

  lemma {:induction false} LikeFails(vs: seq<Value>, s: string, ret: Check)
    requires !ret.Rest?
    ensures !VerifiedLike(vs, s, ret).Rest?
  {
    if vs != [] {
      LikeFails(vs[1..], s, ret);
    }
  }

  /** If the generator fails on item `i`, the signature check fails on the tuple. */
  lemma {:induction false} ItemFails(vs: seq<Value>, i: nat, y: string)
    requires i < |vs| && (forall e :: e in vs ==> Plain(e)) && !Verified(vs[i], y).Rest?
    ensures !VerifiedFields(vs, PrintAll(SigsOf(vs[..i])) + y).Rest?
    decreases i
  {
    if i > 0 {
      PlainTyped(vs[0]);
      assert vs[..i][1..] == vs[1..][..i - 1];
      PrintAllSplit(SigsOf(vs[..i]), y);
      assert SigsOf(vs[..i]) == [SigOf(vs[0])] + SigsOf(vs[1..][..i - 1]);
      VerifiedExact(vs[0], SigOf(vs[0]), PrintAll(SigsOf(vs[1..][..i - 1])) + y);
      ItemFails(vs[1..], i - 1, y);
      assert PrintAll(SigsOf(vs[..i])) + y == Print(SigOf(vs[0])) + (PrintAll(SigsOf(vs[1..][..i - 1])) + y);
    } else {
      assert PrintAll(SigsOf(vs[..0])) + y == y;
    }
  }

  /** type_signature_of_di_value_to_buffer */
  method ToBuffer(v: Value, buffer: array<char>, at: nat) returns (r: Generated)
    requires if Plain(v) then at + Size(v) <= buffer.Length else v.Other?
    modifies buffer
    ensures v.Other? ==> r.Failed? && buffer[..] == old(buffer[..])
    ensures Plain(v) ==> buffer[..at] == old(buffer[..at]) && buffer[at + Size(v)..] == old(buffer[at + Size(v)..])
    ensures Plain(v) && Makes(v) ==> r == Made(Tree(SigOf(v))) && buffer[at..at + Size(v)] == Print(SigOf(v))
    ensures Plain(v) && !Makes(v) ==> !r.Made? && !Verified(v, buffer[at..]).Rest?
    ensures Plain(v) && v.Array? && v.elems[0].Simple? ==> !r.Undone?
    decreases v, 1
  {
    if v.Simple? {
      buffer[at] := Code(v.kind);
      return Made(Node([Code(v.kind)], []));
    }
    if v.Array? {
      r := ArrayToBuffer(v, buffer, at);
      return;
    }
    if v.Tuple? {
      r := TupleToBuffer(v, buffer, at);
      return;
    }
    if v.Boxed? {
      buffer[at] := 'v';
      return Made(Node("v", []));
    }
    return Failed;
  }

  /** The check of an array of simple values does not abort on the text just written. */
  lemma SimpleChecked(v: Value, s: string, y: string)
    requires Plain(v) && v.Array? && v.elems[0].Simple? && s != "" && s[0] == 'a'
    requires s[1..] == Print(SigOf(v.elems[0])) + y
    ensures !Verified(v, s).Aborts?
  {
    var e := v.elems[0];
    assert Print(SigOf(e)) == [Code(e.kind)];
    assert First(s) == 'a' && First(s[1..]) == Code(e.kind);
    assert Compatible(e.kind, Code(e.kind)) != AssertFails;
    assert Verified(v, s) == VerifiedSame(v.elems, s[1..]) == Verified(e, s[1..]);
  }

  /** What the check of the array says about the text just written, whatever follows it. */
  lemma ArrayVerdict(v: Value, s: string, y: string)
    requires Plain(v) && v.Array? && s != "" && s[0] == 'a'
    requires Makes(v.elems[0]) ==> s[1..] == Print(SigOf(v.elems[0])) + y
    requires !Makes(v.elems[0]) ==> !Verified(v.elems[0], s[1..]).Rest?
    ensures Verified(v, s).Rest? <==> Uniform(v)
    ensures Makes(v) <==> Uniform(v)
    ensures Uniform(v) ==> Makes(v.elems[0])
  {
    UniformArray(v);
    if Makes(v.elems[0]) {
      ArrayText(v, s, y);
    } else {
      FirstFails(v, s);
    }
  }

  lemma ArrayText(v: Value, s: string, y: string)
    requires Plain(v) && v.Array? && s != "" && s[0] == 'a' && s[1..] == Print(SigOf(v.elems[0])) + y
    ensures Verified(v, s).Rest? <==> Uniform(v)
  {
    hide Plain, Fits, Verified, SigOf, Print, Tree, Typed, First, Proper;
    PlainTyped(v);
    ArrayParts(v);
    Spliced(s, Print(SigOf(v.elems[0])), y);
    VerifiedExact(v, SigOf(v), y);
  }

  lemma Spliced(s: string, text: string, y: string)
    requires s != "" && s[0] == 'a' && s[1..] == text + y
    ensures s == "a" + text + y
  {
    assert s == [s[0]] + s[1..];
  }

  lemma ArrayParts(v: Value)
    requires Plain(v) && v.Array?
    ensures v.elems != [] && Plain(v.elems[0]) && Size(v) == 1 + Size(v.elems[0])
    ensures Print(SigOf(v)) == "a" + Print(SigOf(v.elems[0]))
    ensures Tree(SigOf(v)) == Node(Print(SigOf(v)), [Tree(SigOf(v.elems[0]))])
    ensures Tree(SigOf(v.elems[0])).current == Print(SigOf(v.elems[0]))
  {
    TreeTexts(SigOf(v.elems[0]));
  }

  /** The branch of type_signature_of_di_value_to_buffer for arrays. */
  method ArrayToBuffer(v: Value, buffer: array<char>, at: nat) returns (r: Generated)
    requires Plain(v) && v.Array? && at + Size(v) <= buffer.Length
    modifies buffer
    ensures buffer[..at] == old(buffer[..at]) && buffer[at + Size(v)..] == old(buffer[at + Size(v)..])
    ensures Makes(v) ==> r == Made(Tree(SigOf(v))) && buffer[at..at + Size(v)] == Print(SigOf(v))
    ensures !Makes(v) ==> !r.Made? && !Verified(v, buffer[at..]).Rest?
    ensures v.elems[0].Simple? ==> !r.Undone?
    decreases v, 0
  {
    hide Uniform, Makes, Fits, Verified, Plain, SigOf, Tree, Print, Size;
    ArrayParts(v);
    buffer[at] := 'a';
    ghost var before := buffer[..];
    var res := ToBuffer(v.elems[0], buffer, at + 1);
    ghost var text, y := buffer[at..], buffer[at + Size(v)..];
    AfterFirst(before, buffer[..], at, Size(v.elems[0]));
    ArrayVerdict(v, text, y);
    if v.elems[0].Simple? {
      SimpleMakes(v.elems[0]);
      SimpleChecked(v, text, y);
    }
    if res.Undone? {
      return Undone;
    }
    var check := Verify(v, buffer[at..]);
    if !check.Rest? {
      return if check.Aborts? then Undone else Failed;
    }
    return Made(Node(buffer[at..at + |res.node.current| + 1], [res.node]));
  }

  /** The buffer once the first element's text, of `n` characters, is behind the `a`. */
  lemma AfterFirst(before: string, after: string, at: nat, n: nat)
    requires at + 1 + n <= |before| == |after| && before[at] == 'a' && after[..at + 1] == before[..at + 1]
    ensures after[..at] == before[..at] && after[at..] != "" && after[at..][0] == 'a'
    ensures after[at..][1..] == after[at + 1..at + 1 + n] + after[at + 1 + n..]
    ensures after[at..at + 1 + n] == "a" + after[at + 1..at + 1 + n]
  {
    assert after[..at] == after[..at + 1][..at] && before[..at] == before[..at + 1][..at];
    assert after[at] == after[..at + 1][at];
  }

  lemma SimpleMakes(v: Value)
    requires Plain(v) && v.Simple?
    ensures Makes(v)
  {
  }

  lemma {:induction false} PrefixSize(vs: seq<Value>, i: nat)
    requires i <= |vs| && forall e :: e in vs ==> Plain(e)
    ensures |PrintAll(SigsOf(vs[..i]))| <= |PrintAll(SigsOf(vs))|
    decreases |vs| - i
  {
    if i < |vs| {
      SigsMore(vs, i);
      PrefixSize(vs, i + 1);
    } else {
      assert vs[..i] == vs;
    }
  }

  lemma TupleParts(v: Value)
    requires Plain(v) && v.Tuple?
    ensures (forall e :: e in v.items ==> Plain(e)) && (Makes(v) <==> forall k :: 0 <= k < |v.items| ==>
      Makes(v.items[k]))
    ensures Print(SigOf(v)) == "(" + PrintAll(SigsOf(v.items)) + ")" && Size(v) == |PrintAll(SigsOf(v.items))| + 2
    ensures Tree(SigOf(v)) == Node(Print(SigOf(v)), Trees(SigsOf(v.items)))
    ensures PrintAll(SigsOf(v.items[..0])) == "" && Trees(SigsOf(v.items[..0])) == []
    ensures v.items[..|v.items|] == v.items
  {
  }

  lemma TupleFails(v: Value, i: nat, s: string, y: string)
    requires Plain(v) && v.Tuple? && i < |v.items| && (forall e :: e in v.items ==> Plain(e))
    requires s == "(" + PrintAll(SigsOf(v.items[..i])) + y && !Verified(v.items[i], y).Rest?
    ensures !Verified(v, s).Rest?
  {
    ItemFails(v.items, i, y);
    assert s[1..] == PrintAll(SigsOf(v.items[..i])) + y;
  }

  /** How far the loop over a tuple's items has come: the first `i` are in the buffer. */
  ghost predicate Written(v: Value, text: seq<char>, i: nat, curr: nat, children: seq<Node>)
    requires Plain(v) && v.Tuple? && i <= |v.items|
  {
    && (forall e :: e in v.items ==> Plain(e)) && (forall k :: 0 <= k < i ==> Makes(v.items[k]))
    && text == "(" + PrintAll(SigsOf(v.items[..i])) && |text| == curr < Size(v)
    && children == Trees(SigsOf(v.items[..i]))
  }

  lemma WrittenMore(v: Value, text: seq<char>, i: nat, curr: nat, children: seq<Node>, node: Node, more: seq<char>)
    requires Plain(v) && v.Tuple? && i < |v.items| && Written(v, text, i, curr, children)
    requires Plain(v.items[i]) && Makes(v.items[i]) && node == Tree(SigOf(v.items[i]))
    requires more == Print(SigOf(v.items[i]))
    ensures Written(v, text + more, i + 1, curr + |node.current|, children + [node])
    ensures |node.current| == Size(v.items[i])
  {
    hide Makes, SigOf, SigsOf, Tree, Trees, Print, PrintAll, Plain, Size;
    ItemText(v.items, i);
    TupleParts(v);
    assert text + more == "(" + (PrintAll(SigsOf(v.items[..i])) + more);
  }

  lemma WrittenAll(v: Value, text: seq<char>, curr: nat, children: seq<Node>)
    requires Plain(v) && v.Tuple? && Written(v, text, |v.items|, curr, children)
    ensures Makes(v) && curr + 1 == Size(v)
    ensures Tree(SigOf(v)) == Node(text + ")", children) && Print(SigOf(v)) == text + ")"
  {
    hide Makes, SigOf, Tree, Print, Plain;
    TupleParts(v);
  }

  lemma WrittenRoom(v: Value, text: seq<char>, i: nat, curr: nat, children: seq<Node>)
    requires Plain(v) && v.Tuple? && i < |v.items| && Written(v, text, i, curr, children)
    ensures Plain(v.items[i]) && curr + Size(v.items[i]) <= Size(v) && v.items[i] < v
  {
    hide Makes, Tree, Print, Plain;
    ItemRoom(v.items, i);
    TupleParts(v);
  }

  lemma WrittenFails(v: Value, text: seq<char>, i: nat, curr: nat, children: seq<Node>, y: seq<char>)
    requires Plain(v) && v.Tuple? && i < |v.items| && Written(v, text, i, curr, children) && Plain(v.items[i])
    requires !Makes(v.items[i]) && !Verified(v.items[i], y).Rest?
    ensures !Verified(v, text + y).Rest? && !Makes(v)
  {
    hide Verified, Plain;
    TupleFails(v, i, text + y, y);
    TupleParts(v);
  }

  /** The branch of type_signature_of_di_value_to_buffer for tuples. */
  method TupleToBuffer(v: Value, buffer: array<char>, at: nat) returns (r: Generated)
    requires Plain(v) && v.Tuple? && at + Size(v) <= buffer.Length
    modifies buffer
    ensures buffer[..at] == old(buffer[..at]) && buffer[at + Size(v)..] == old(buffer[at + Size(v)..])
    ensures Makes(v) ==> r == Made(Tree(SigOf(v))) && buffer[at..at + Size(v)] == Print(SigOf(v))
    ensures !Makes(v) ==> !r.Made? && !Verified(v, buffer[at..]).Rest?
    decreases v, 0
  {
    hide Makes, Fits, Verified, Plain, SigOf, SigsOf, Tree, Trees, Print, PrintAll, Size, Written;
    WrittenNone(v);
    buffer[at] := '(';
    var curr, children := at + 1, [];
    assert buffer[at..curr] == "(";
    for i := 0 to |v.items|
      invariant at < curr < at + Size(v) && Written(v, buffer[at..curr], i, curr - at, children)
      invariant buffer[..at] == old(buffer[..at]) && buffer[at + Size(v)..] == old(buffer[at + Size(v)..])
    {
      ghost var before := buffer[..];
      WrittenRoom(v, buffer[at..curr], i, curr - at, children);
      var res := ToBuffer(v.items[i], buffer, curr);
      KeptAround(before, buffer[..], at, curr, Size(v.items[i]), at + Size(v));
      if !res.Made? {
        WrittenFails(v, buffer[at..curr], i, curr - at, children, buffer[curr..]);
        assert buffer[at..] == buffer[at..curr] + buffer[curr..];
        return res;
      }
      WrittenMore(v, buffer[at..curr], i, curr - at, children, res.node, buffer[curr..curr + Size(v.items[i])]);
      assert buffer[at..curr + Size(v.items[i])] == buffer[at..curr] + buffer[curr..curr + Size(v.items[i])];
      children := children + [res.node];
      curr := curr + |res.node.current|;
      WrittenBound(v, buffer[at..curr], i + 1, curr - at, children);
    }
    WrittenAll(v, buffer[at..curr], curr - at, children);
    Close(buffer, at, curr);
    return Made(Node(buffer[at..curr + 1], children));
  }

  lemma WrittenNone(v: Value)
    requires Plain(v) && v.Tuple?
    ensures Written(v, "(", 0, 1, []) && 1 < Size(v)
  {
    TupleParts(v);
  }

  lemma WrittenBound(v: Value, text: seq<char>, i: nat, curr: nat, children: seq<Node>)
    requires Plain(v) && v.Tuple? && i <= |v.items| && Written(v, text, i, curr, children)
    ensures curr < Size(v)
  {
  }

  method Close(buffer: array<char>, at: nat, curr: nat)
    requires at <= curr < buffer.Length
    modifies buffer
    ensures buffer[..at] == old(buffer[..at]) && buffer[curr + 1..] == old(buffer[curr + 1..])
    ensures buffer[at..curr + 1] == old(buffer[at..curr]) + ")"
  {
    buffer[curr] := ')';
  }

  /** What a call that writes `n` characters at `curr` leaves around them. */
  lemma KeptAround(before: seq<char>, after: seq<char>, at: nat, curr: nat, n: nat, end: nat)
    requires at <= curr && curr + n <= end <= |before| == |after|
    requires after[..curr] == before[..curr] && after[curr + n..] == before[curr + n..]
    ensures after[..at] == before[..at] && after[at..curr] == before[at..curr] && after[end..] == before[end..]
  {
    assert after[..at] == after[..curr][..at] && before[..at] == before[..curr][..at];
    assert after[at..curr] == after[..curr][at..] && before[at..curr] == before[..curr][at..];
    assert after[end..] == after[curr + n..][end - curr - n..] && before[end..] == before[curr + n..][end - curr - n..];
  }

  lemma ItemRoom(vs: seq<Value>, i: nat)
    requires i < |vs| && forall e :: e in vs ==> Plain(e)
    ensures |PrintAll(SigsOf(vs[..i]))| + Size(vs[i]) <= |PrintAll(SigsOf(vs))| && Plain(vs[i])
  {
    hide Plain;
    assert vs[i] in vs;
    SigsMore(vs, i);
    PrefixSize(vs, i + 1);
  }

  lemma ItemText(vs: seq<Value>, i: nat)
    requires i < |vs| && forall e :: e in vs ==> Plain(e)
    ensures PrintAll(SigsOf(vs[..i + 1])) == PrintAll(SigsOf(vs[..i])) + Print(SigOf(vs[i]))
    ensures Trees(SigsOf(vs[..i + 1])) == Trees(SigsOf(vs[..i])) + [Tree(SigOf(vs[i]))]
    ensures Tree(SigOf(vs[i])).current == Print(SigOf(vs[i])) && |Print(SigOf(vs[i]))| == Size(vs[i])
    ensures |PrintAll(SigsOf(vs[..i + 1]))| <= |PrintAll(SigsOf(vs))|
  {
    hide Plain;
    assert vs[i] in vs;
    SigsMore(vs, i);
    PrefixSize(vs, i + 1);
    TreeTexts(SigOf(vs[i]));
  }

  /** The texts of simple values. */
  lemma SimpleTexts(v: Value)
    ensures v.Simple? ==>
      && Plain(v) && Makes(v) && Size(v) == 1 && |Print(Bare(v))| == 1
      && Tree(SigOf(v)) == Node(Print(SigOf(v)), [])
      && Print(SigOf(v)) == match v.kind
                            case Bool => "b"
                            case Int => "x"
                            case Uint => "t"
                            case Nint => "i"
                            case Nuint => "u"
                            case Float => "d"
                            case String => "s"
                            case StringLiteral => "s"
  {
  }

  /** type_signature_of_di_value: the type of the value, in a buffer of the length computed
      before.  The NUL is written at the end of the buffer, which is behind the text exactly
      if all variants are snug.  When the generator fails, the buffer is released and the NUL
      is written all the same: `late` says so. */
  method TypeSignature(v: Value) returns (r: Generated, text: array?<char>, late: bool)
    requires Plain(v) || (Listed(v) && Untyped(v))
    ensures Untyped(v) ==> r.Failed? && text == null && !late
    ensures Plain(v) ==> (Makes(v) <==> r.Made?) && text != null && text.Length == |Print(Bare(v))| + 1
    ensures r.Made? ==> Plain(v) && r == Made(Tree(SigOf(v)))
    ensures r.Made? ==> Size(v) < text.Length && text[..Size(v)] == Print(SigOf(v)) && text[text.Length - 1] == '\0'
    ensures r.Made? ==> (Size(v) == text.Length - 1 <==> Snug(v))
    ensures !r.Undone? ==> (late <==> Plain(v) && !Makes(v))
    ensures v.Array? && v.elems != [] && v.elems[0].Simple? ==> !r.Undone?
    ensures v == Simple(Bool) ==> r == Made(Node("b", [])) && text[..] == "b\0"
    ensures v == Simple(Int) ==> r == Made(Node("x", [])) && text[..] == "x\0"
    ensures v == Simple(Uint) ==> r == Made(Node("t", [])) && text[..] == "t\0"
    ensures v == Simple(Nint) ==> r == Made(Node("i", [])) && text[..] == "i\0"
    ensures v == Simple(Nuint) ==> r == Made(Node("u", [])) && text[..] == "u\0"
    ensures v == Simple(Float) ==> r == Made(Node("d", [])) && text[..] == "d\0"
    ensures v == Simple(String) ==> r == Made(Node("s", [])) && text[..] == "s\0"
    ensures v == Simple(StringLiteral) ==> r == Made(Node("s", [])) && text[..] == "s\0"
  {
    SimpleTexts(v);
    hide Makes, Fits, Verified, SigOf, Tree, Print, Bare, Snug, Plain, Listed, Untyped;
    if Plain(v) {
      PlainListed(v);
    }
    var len := Length(v);
    if len < 0 {
      return Failed, null, false;
    }
    var ret := new char[len + 1];
    r := ToBuffer(v, ret, 0);
    var freed := r.Failed?;
    if r.Undone? {
      return r, ret, false;
    }
    assert r.Made? ==> ret[..Size(v)] == Print(SigOf(v)) by {
      assert ret[0..0 + Size(v)] == ret[..Size(v)];
    }
    ret[len] := '\0';
    assert v.Simple? ==> ret[..] == ret[..1] + ['\0'];
    return r, ret, freed;
  }

  // ---- the findings at an input each ----------------------------------------------------------

  /** An array of one string literal: the NUL is written into the released buffer. */
  method LateWrite() returns (r: Generated, late: bool)
    ensures r.Failed? && late
  {
    var v := Array([Simple(StringLiteral)]);
    LiteralsRefused();
    var text;
    r, text, late := TypeSignature(v);
  }

  /** No array of string literals has a signature, though each literal has one. */
  lemma LiteralsRefused()
    ensures var v := Array([Simple(StringLiteral)]);
      Plain(v) && !Makes(v) && Makes(v.elems[0]) && !Uniform(v.elems[0])
  {
    var e := Simple(StringLiteral);
    assert SigOf(e) == Basic('s') && !Fits(e, Basic('s'));
    assert SigOf(Array([e])) == ArrayOf(Basic('s')) && [e][0] == e;
  }

  /** An array of tuples of an int64 and of an int32 has the signature of the first. */
  lemma WidthsMixed()
    ensures var v := Array([Tuple([Simple(Int)]), Tuple([Simple(Nint)])]);
      Plain(v) && Makes(v) && SigOf(v.elems[0]) != SigOf(v.elems[1])
  {
    var a, b := Tuple([Simple(Int)]), Tuple([Simple(Nint)]);
    OneField(Int);
    OneField(Nint);
    hide Fits, SigOf;
    assert [a, b][0] == a && [a, b][1] == b;
    TwoElems(a, b);
  }

  lemma OneField(t: Type)
    ensures var v := Tuple([Simple(t)]); Plain(v) && SigOf(v) == Struct([Basic(Code(t))])
    ensures forall u :: Fits(Tuple([Simple(u)]), Struct([Basic(Code(t))])) <==> Compatible(u, Code(t)) == Yes
  {
    assert SigsOf([Simple(t)]) == [Basic(Code(t))];
    forall u ensures Fits(Tuple([Simple(u)]), Struct([Basic(Code(t))])) <==> Compatible(u, Code(t)) == Yes {
      assert Fits(Simple(u), Basic(Code(t))) <==> Compatible(u, Code(t)) == Yes;
    }
  }

  lemma TwoElems(a: Value, b: Value)
    requires Plain(a) && Plain(b) && SameKind(a, a) && SameKind(a, b) && Fits(a, SigOf(a)) && Fits(b, SigOf(a))
    ensures var v := Array([a, b]); Plain(v) && Makes(v)
  {
    hide SameKind;
    assert [a, b][0] == a;
  }

  /** A variant that holds an empty tuple: between the text and the NUL is a gap. */
  lemma GapBeforeNul()
    ensures var v := Boxed(Tuple([])); Plain(v) && !Snug(v) && |Print(SigOf(v))| == 1 && |Print(Bare(v))| == 2
  {
    assert BareAll([]) == [];
    assert Print(Struct([])) == "()";
  }

  // ---- generator, check and parser agree ----------------------------------------------------

  /** The signature check consumes exactly a generated signature, from any text that begins
      with it, if and only if the value is of its own type; and the parser reads the same tree
      off that text. */
  lemma Agree(v: Value, x: string, sig: Sig, rest: string)
    requires Plain(v)
    ensures Verified(v, Print(SigOf(v)) + x) == Rest(x) <==> Uniform(v)
    ensures Uniform(v) <==> Makes(v) && NoLiterals(v)
    ensures Starts(Print(SigOf(v)) + x, sig, rest) ==> Tree(sig) == Tree(SigOf(v)) && rest == x
  {
    PlainTyped(v);
    VerifiedExact(v, SigOf(v), x);
    UniformMakes(v);
    if Starts(Print(SigOf(v)) + x, sig, rest) {
      PrintUnique(SigOf(v), x, sig, rest);
    }
  }
}
