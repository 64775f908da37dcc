// D-Bus type signatures: the grammar, its trees, and the parser.

module Grammar {

  /** A single complete type (D-Bus Specification, section "Type System"), without dict entries. */
  datatype Sig = Basic(code: char) | Variant | ArrayOf(elem: Sig) | Struct(fields: seq<Sig>)

  /** `struct dbus_signature`: the text of a type and the nodes of its parts. */
  datatype Node = Node(current: string, children: seq<Node>)

  /** The type codes for which dbus_type_is_basic holds. */
  predicate IsBasicCode(c: char) {
    c in "ybnqiuxtdsogh"
  }

  ghost predicate Proper(sig: Sig) {
    match sig
    case Basic(c) => IsBasicCode(c)
    case Variant => true
    case ArrayOf(e) => Proper(e)
    case Struct(fields) => forall f :: f in fields ==> Proper(f)
  }

  ghost predicate ProperAll(sigs: seq<Sig>) {
    forall f :: f in sigs ==> Proper(f)
  }

  ghost function Print(sig: Sig): string
    decreases sig, 0
  {
    match sig
    case Basic(c) => [c]
    case Variant => "v"
    case ArrayOf(e) => "a" + Print(e)
    case Struct(fields) => "(" + PrintAll(fields) + ")"
  }

  ghost function PrintAll(sigs: seq<Sig>): string
    decreases sigs, 1
  {
    if sigs == [] then "" else Print(sigs[0]) + PrintAll(sigs[1..])
  }

  /** The nodes that belong to a type: each carries exactly its own text. */
  ghost function Tree(sig: Sig): Node
    decreases sig, 0
  {
    match sig
    case Basic(_) => Node(Print(sig), [])
    case Variant => Node(Print(sig), [])
    case ArrayOf(e) => Node(Print(sig), [Tree(e)])
    case Struct(fields) => Node(Print(sig), Trees(fields))
  }

  ghost function Trees(sigs: seq<Sig>): seq<Node>
    decreases sigs, 1
  {
    if sigs == [] then [] else [Tree(sigs[0])] + Trees(sigs[1..])
  }

  // ---- a text is read in one way only ------------------------------------------------------

  lemma PrintStarts(sig: Sig)
    requires Proper(sig)
    ensures |Print(sig)| > 0 && Print(sig)[0] != ')' && Print(sig)[0] != '\0'
    ensures Print(sig)[0] == match sig
      case Basic(c) => c
      case Variant => 'v'
      case ArrayOf(_) => 'a'
      case Struct(_) => '('
  {
  }

  /** No type's text is the beginning of another's. */
  lemma {:induction false} PrintUnique(a: Sig, x: string, b: Sig, y: string)
    requires Proper(a) && Proper(b) && Print(a) + x == Print(b) + y
    ensures a == b && x == y
    decreases a, 0
  {
    PrintStarts(a);
    PrintStarts(b);
    assert (Print(a) + x)[0] == Print(a)[0] && (Print(b) + y)[0] == Print(b)[0];
    assert (Print(a) + x)[1..] == Print(a)[1..] + x && (Print(b) + y)[1..] == Print(b)[1..] + y;
    match a
    case Basic(_) =>
    case Variant =>
    case ArrayOf(e) =>
      PrintUnique(e, x, b.elem, y);
    case Struct(fields) =>
      assert Print(a)[1..] + x == PrintAll(fields) + (")" + x);
      assert Print(b)[1..] + y == PrintAll(b.fields) + (")" + y);
      PrintAllUnique(fields, ")" + x, b.fields, ")" + y, ')');
      assert (")" + x)[1..] == x && (")" + y)[1..] == y;
  }

  lemma PrintAllSplit(sigs: seq<Sig>, x: string)
    ensures PrintAll(sigs) + x == if sigs == [] then x else Print(sigs[0]) + (PrintAll(sigs[1..]) + x)
  {
  }

  ghost predicate Stops(x: string, end: char) {
    x == "" || x[0] == end
  }

  lemma GoesOn(sigs: seq<Sig>, x: string, end: char)
    requires ProperAll(sigs) && (end == ')' || end == '\0')
    ensures sigs != [] ==> !Stops(PrintAll(sigs) + x, end)
  {
    if sigs != [] {
      PrintStarts(sigs[0]);
    }
  }

  lemma {:induction false} PrintAllUnique(a: seq<Sig>, x: string, b: seq<Sig>, y: string, end: char)
    requires ProperAll(a) && ProperAll(b) && PrintAll(a) + x == PrintAll(b) + y
    requires Stops(x, end) && Stops(y, end) && (end == ')' || end == '\0')
    ensures a == b && x == y
    decreases a, 1
  {
    PrintAllSplit(a, x);
    PrintAllSplit(b, y);
    GoesOn(a, x, end);
    GoesOn(b, y, end);
    if a != [] && b != [] {
      PrintUnique(a[0], PrintAll(a[1..]) + x, b[0], PrintAll(b[1..]) + y);
      PrintAllUnique(a[1..], x, b[1..], y, end);
      assert a == [a[0]] + a[1..] && b == [b[0]] + b[1..];
    }
  }

  lemma {:induction false} PrintAllMore(sigs: seq<Sig>, sig: Sig)
    ensures PrintAll(sigs + [sig]) == PrintAll(sigs) + Print(sig)
    ensures Trees(sigs + [sig]) == Trees(sigs) + [Tree(sig)]
  {
    hide Print, Tree;
    if sigs == [] {
      assert sigs + [sig] == [sig];
      assert [sig][1..] == [];
    } else {
      PrintAllMore(sigs[1..], sig);
      assert (sigs + [sig])[1..] == sigs[1..] + [sig];
    }
  }

  /** Concatenating the texts of the children gives the text of the whole back. */
  ghost function Texts(nodes: seq<Node>): string {
    if nodes == [] then "" else nodes[0].current + Texts(nodes[1..])
  }

  lemma {:induction false} TreesTexts(sigs: seq<Sig>)
    ensures Texts(Trees(sigs)) == PrintAll(sigs) && |Trees(sigs)| == |sigs|
  {
    if sigs != [] {
      TreesTexts(sigs[1..]);
      assert Trees(sigs)[1..] == Trees(sigs[1..]);
    }
  }

  lemma TreeTexts(sig: Sig)
    requires Proper(sig)
    ensures Tree(sig).current == Print(sig)
    ensures sig.ArrayOf? ==> Tree(sig).current == "a" + Texts(Tree(sig).children)
    ensures sig.Struct? ==> Tree(sig).current == "(" + Texts(Tree(sig).children) + ")"
  {
    match sig
    case Basic(_) =>
    case Variant =>
    case ArrayOf(e) =>
      assert [Tree(e)][1..] == [];
    case Struct(fields) =>
      TreesTexts(fields);
  }

  // ---- the parser --------------------------------------------------------------------------

  /** `Undefined`: an assert fails or a character is read behind the end. */
  datatype Result = Parsed(node: Node, rest: string) | Invalid | Undefined

  ghost predicate Starts(s: string, sig: Sig, rest: string) {
    Proper(sig) && s == Print(sig) + rest
  }

  /** `s` consists of types and a rest that stops at `end`. */
  ghost predicate StartsAll(s: string, sigs: seq<Sig>, rest: string, end: char) {
    ProperAll(sigs) && Stops(rest, end) && s == PrintAll(sigs) + rest
  }

  /** `s` is the beginning of the text of a type, which goes on. */
  ghost predicate Begins(s: string, sig: Sig, more: string) {
    Proper(sig) && Print(sig) == s + more && more != ""
  }

  ghost predicate BeginsAll(s: string, sigs: seq<Sig>, more: string) {
    ProperAll(sigs) && PrintAll(sigs) == s + more && more != ""
  }

  /** parse_dbus_signature_one: where there is no type, the text is invalid or ends too early. */
  method ParseOne(s: string) returns (r: Result, ghost sig: Sig)
    ensures r.Parsed? ==> Starts(s, sig, r.rest) && r.node == Tree(sig)
    ensures !r.Parsed? ==> forall t, rest :: !Starts(s, t, rest)
    ensures r.Undefined? ==> exists t, more :: Begins(s, t, more)
    ensures r.Invalid? ==> forall t, more :: !Begins(s, t, more)
    decreases |s|, 0
  {
    sig := Variant;
    if s == "" {
      assert Begins(s, Variant, "v");
      forall t, rest ensures !Starts(s, t, rest) {
        if Proper(t) { PrintStarts(t); }
      }
      return Undefined, sig;
    }
    if IsBasicCode(s[0]) || s[0] == 'v' {
      sig := if s[0] == 'v' then Variant else Basic(s[0]);
      assert s == [s[0]] + s[1..];
      return Parsed(Node(s[..1], []), s[1..]), sig;
    }
    if s[0] == 'a' {
      var child, elem := ParseOne(s[1..]);
      if !child.Parsed? {
        forall t, rest ensures !Starts(s, t, rest) {
          NotArray(s, t, rest);
        }
        ArrayEnds(s, child);
        return child, sig;
      }
      sig := ArrayOf(elem);
      TreeTexts(elem);
      assert s == "a" + s[1..];
      assert s[..|child.node.current| + 1] == "a" + Print(elem);
      return Parsed(Node(s[..|child.node.current| + 1], [child.node]), child.rest), sig;
    }
    if s[0] == '(' {
      var fields, parts := ParseSequence(s[1..], ')');
      if !fields.Parsed? {
        forall t, rest ensures !Starts(s, t, rest) {
          NotStruct(s, t, rest);
        }
        StructEnds(s, fields);
        return fields, sig;
      }
      if fields.rest == "" {
        forall t, rest ensures !Starts(s, t, rest) {
          NotClosed(s, parts, t, rest);
        }
        assert s == "(" + PrintAll(parts);
        assert Begins(s, Struct(parts), ")");
        return Undefined, sig;
      }
      sig := Struct(parts);
      assert s == "(" + PrintAll(parts) + ")" + fields.rest[1..];
      return Parsed(Node(s[..|fields.node.current| + 2], fields.node.children), fields.rest[1..]), sig;
    }
    forall t, rest ensures !Starts(s, t, rest) && !Begins(s, t, rest) {
      if Proper(t) { PrintStarts(t); }
    }
    return Invalid, sig;
  }

  /** parse_dbus_signaure_sequence */
  method ParseSequence(s: string, end: char) returns (r: Result, ghost sigs: seq<Sig>)
    requires end == ')' || end == '\0'
    ensures r.Parsed? ==> StartsAll(s, sigs, r.rest, end) && r.node == Node(PrintAll(sigs), Trees(sigs))
    ensures !r.Parsed? ==> forall ts, rest :: !StartsAll(s, ts, rest, end)
    ensures r.Undefined? ==> exists ts, more :: BeginsAll(s, ts, more)
    ensures r.Invalid? ==> forall ts, more :: !BeginsAll(s, ts, more)
    decreases |s|, 1
  {
    hide Print, PrintAll, Tree, Trees, Proper;
    var signature, children, length := s, [], 0;
    sigs := [];
    Nothing(s);
    while signature != "" && signature[0] != end
      invariant ProperAll(sigs) && s == PrintAll(sigs) + signature
      invariant length == |PrintAll(sigs)| && children == Trees(sigs)
      decreases |signature|
    {
      var child, sig := ParseOne(signature);
      if !child.Parsed? {
        forall ts, rest ensures !StartsAll(s, ts, rest, end) {
          NotAll(s, sigs, signature, ts, rest, end);
        }
        SequenceEnds(s, sigs, signature, child);
        return child, sigs;
      }
      OneMore(s, sigs, signature, sig, child.rest);
      children := children + [child.node];
      length := length + |child.node.current|;
      sigs := sigs + [sig];
      signature := child.rest;
    }
    return Parsed(Node(s[..length], children), signature), sigs;
  }

  lemma Nothing(s: string)
    ensures s == PrintAll([]) + s && |PrintAll([])| == 0 && Trees([]) == []
  {
  }

  /** One round of the loop. */
  lemma OneMore(s: string, sigs: seq<Sig>, signature: string, sig: Sig, rest: string)
    requires ProperAll(sigs) && s == PrintAll(sigs) + signature && Starts(signature, sig, rest)
    ensures ProperAll(sigs + [sig]) && s == PrintAll(sigs + [sig]) + rest && |rest| < |signature|
    ensures |PrintAll(sigs + [sig])| == |PrintAll(sigs)| + |Tree(sig).current|
    ensures Trees(sigs + [sig]) == Trees(sigs) + [Tree(sig)]
  {
    PrintStarts(sig);
    TreeTexts(sig);
    PrintAllMore(sigs, sig);
    assert PrintAll(sigs) + (Print(sig) + rest) == PrintAll(sigs) + Print(sig) + rest;
  }

  lemma NotArray(s: string, t: Sig, rest: string)
    requires s != "" && s[0] == 'a' && forall e, x :: !Starts(s[1..], e, x)
    ensures !Starts(s, t, rest)
  {
    if Starts(s, t, rest) {
      PrintStarts(t);
      assert s[1..] == Print(t.elem) + rest;
      assert Starts(s[1..], t.elem, rest);
    }
  }

  /** After the beginning of an array's text, the element decides. */
  lemma ArrayEnds(s: string, child: Result)
    requires s != "" && s[0] == 'a'
    requires child.Undefined? ==> exists e, more :: Begins(s[1..], e, more)
    requires child.Invalid? ==> forall e, more :: !Begins(s[1..], e, more)
    ensures child.Undefined? ==> exists t, more :: Begins(s, t, more)
    ensures child.Invalid? ==> forall t, more :: !Begins(s, t, more)
  {
    if child.Undefined? {
      var e, more :| Begins(s[1..], e, more);
      assert Print(ArrayOf(e)) == "a" + s[1..] + more;
      assert Begins(s, ArrayOf(e), more);
    }
    forall t, more | Begins(s, t, more) ensures exists e :: Begins(s[1..], e, more) {
      PrintStarts(t);
      assert Print(t)[0] == 'a' && Print(t)[1..] == s[1..] + more;
      assert Begins(s[1..], t.elem, more);
    }
  }

  /** And after that of a struct's, the fields. */
  lemma StructEnds(s: string, fields: Result)
    requires s != "" && s[0] == '(' && forall ts, x :: !StartsAll(s[1..], ts, x, ')')
    requires fields.Undefined? ==> exists ts, more :: BeginsAll(s[1..], ts, more)
    requires fields.Invalid? ==> forall ts, more :: !BeginsAll(s[1..], ts, more)
    ensures fields.Undefined? ==> exists t, more :: Begins(s, t, more)
    ensures fields.Invalid? ==> forall t, more :: !Begins(s, t, more)
  {
    if fields.Undefined? {
      var ts, more :| BeginsAll(s[1..], ts, more);
      assert Print(Struct(ts)) == "(" + s[1..] + (more + ")");
      assert Begins(s, Struct(ts), more + ")");
    }
    forall t, more | Begins(s, t, more) ensures exists ts, x :: BeginsAll(s[1..], ts, x) {
      FieldsGoOn(s, t, more);
    }
  }

  lemma LessLast(a: string, b: string, c: string)
    requires a + ")" == b + c && c != ""
    ensures a == b + c[..|c| - 1] && c[|c| - 1] == ')'
  {
    assert (a + ")")[..|a|] == a && (b + c)[..|a|] == b + c[..|c| - 1];
    assert (a + ")")[|a|] == ')' && (b + c)[|a|] == c[|c| - 1];
  }

  lemma Prefix(a: string, b: string, c: string, d: string)
    requires a + b == c + d && |a| <= |c|
    ensures c == a + c[|a|..]
  {
    assert (a + b)[..|a|] == a && (c + d)[..|a|] == c[..|a|];
    assert c == c[..|a|] + c[|a|..];
  }

  lemma FieldsGoOn(s: string, t: Sig, more: string)
    requires s != "" && s[0] == '(' && Begins(s, t, more) && forall ts, x :: !StartsAll(s[1..], ts, x, ')')
    ensures exists ts, x :: BeginsAll(s[1..], ts, x)
  {
    PrintStarts(t);
    assert Print(t)[0] == '(' && Print(t)[1..] == s[1..] + more;
    var x := more[..|more| - 1];
    assert PrintAll(t.fields) + ")" == s[1..] + more;
    LessLast(PrintAll(t.fields), s[1..], more);
    if x == "" {
      assert StartsAll(s[1..], t.fields, "", ')');
    }
    assert BeginsAll(s[1..], t.fields, x);
  }

  /** After the types `sigs`, what follows decides. */
  lemma SequenceEnds(s: string, sigs: seq<Sig>, signature: string, child: Result)
    requires ProperAll(sigs) && s == PrintAll(sigs) + signature && signature != ""
    requires forall t, x :: !Starts(signature, t, x)
    requires child.Undefined? ==> exists t, more :: Begins(signature, t, more)
    requires child.Invalid? ==> forall t, more :: !Begins(signature, t, more)
    ensures child.Undefined? ==> exists ts, more :: BeginsAll(s, ts, more)
    ensures child.Invalid? ==> forall ts, more :: !BeginsAll(s, ts, more)
  {
    hide Print, PrintAll;
    if child.Undefined? {
      var t, more :| Begins(signature, t, more);
      PrintAllMore(sigs, t);
      assert PrintAll(sigs + [t]) == s + more;
      assert BeginsAll(s, sigs + [t], more);
    }
    forall ts, more | BeginsAll(s, ts, more) ensures exists t, x :: Begins(signature, t, x) {
      assert PrintAll(sigs) + signature + more == PrintAll(sigs) + (signature + more);
      NextGoesOn(sigs, signature, ts, more);
    }
  }

  /** What follows begins with a type, or is the beginning of one. */
  lemma BeginsOrStarts(t: Sig, after: string, signature: string, more: string)
    requires Proper(t) && Print(t) + after == signature + more
    ensures var n, m := |Print(t)|, |signature|;
      if n <= m then Starts(signature, t, signature[n..]) else Begins(signature, t, Print(t)[m..])
  {
    hide Print;
    if |Print(t)| <= |signature| {
      Prefix(Print(t), after, signature, more);
    } else {
      Prefix(signature, more, Print(t), after);
    }
  }

  lemma FirstGoesOn(signature: string, ts: seq<Sig>, more: string)
    requires ProperAll(ts) && PrintAll(ts) == signature + more && signature != ""
    requires forall t, x :: !Starts(signature, t, x)
    ensures exists t, x :: Begins(signature, t, x)
  {
    assert Print(ts[0]) + PrintAll(ts[1..]) == signature + more;
    BeginsOrStarts(ts[0], PrintAll(ts[1..]), signature, more);
  }

  lemma {:induction false} NextGoesOn(sigs: seq<Sig>, signature: string, ts: seq<Sig>, more: string)
    requires ProperAll(sigs) && signature != "" && (forall t, x :: !Starts(signature, t, x))
    requires ProperAll(ts) && PrintAll(ts) == PrintAll(sigs) + (signature + more)
    ensures exists t, x :: Begins(signature, t, x)
    decreases |sigs|
  {
    hide Print, PrintAll, Begins, Starts;
    if sigs == [] {
      NoText();
      FirstGoesOn(signature, ts, more);
    } else {
      PrintAllSplit(sigs, signature + more);
      PrintAllSplit(ts, "");
      assert PrintAll(ts) + "" == PrintAll(ts);
      GoesOn(sigs, signature + more, '\0');
      PrintUnique(sigs[0], PrintAll(sigs[1..]) + (signature + more), ts[0], PrintAll(ts[1..]) + "");
      assert PrintAll(ts[1..]) + "" == PrintAll(ts[1..]);
      NextGoesOn(sigs[1..], signature, ts[1..], more);
    }
  }

  lemma NoText()
    ensures PrintAll([]) == "" && forall x: string :: "" + x == x
  {
  }

  lemma NotStruct(s: string, t: Sig, rest: string)
    requires s != "" && s[0] == '(' && forall ts, x :: !StartsAll(s[1..], ts, x, ')')
    ensures !Starts(s, t, rest)
  {
    if Starts(s, t, rest) {
      PrintStarts(t);
      assert s[1..] == PrintAll(t.fields) + (")" + rest);
      assert StartsAll(s[1..], t.fields, ")" + rest, ')');
    }
  }

  lemma NotClosed(s: string, sigs: seq<Sig>, t: Sig, rest: string)
    requires s != "" && s[0] == '(' && StartsAll(s[1..], sigs, "", ')')
    ensures !Starts(s, t, rest)
  {
    if Starts(s, t, rest) {
      PrintStarts(t);
      assert s[1..] == PrintAll(t.fields) + (")" + rest);
      PrintAllUnique(sigs, "", t.fields, ")" + rest, ')');
    }
  }

  /** After the types `sigs` comes something that is neither a type nor the end. */
  lemma {:induction false} NotAll(s: string, sigs: seq<Sig>, signature: string, ts: seq<Sig>, rest: string, end: char)
    requires ProperAll(sigs) && s == PrintAll(sigs) + signature && signature != "" && signature[0] != end
    requires (end == ')' || end == '\0') && forall t, x :: !Starts(signature, t, x)
    ensures !StartsAll(s, ts, rest, end)
    decreases |sigs|
  {
    if StartsAll(s, ts, rest, end) {
      PrintAllSplit(sigs, signature);
      PrintAllSplit(ts, rest);
      GoesOn(sigs, signature, end);
      assert sigs == [] && ts != [] ==> Starts(signature, ts[0], PrintAll(ts[1..]) + rest);
      if sigs != [] && ts != [] {
        PrintUnique(sigs[0], PrintAll(sigs[1..]) + signature, ts[0], PrintAll(ts[1..]) + rest);
        NotAll(PrintAll(sigs[1..]) + signature, sigs[1..], signature, ts[1..], rest, end);
      }
    }
  }

  /** parse_dbus_signature: the whole text is read, up to a NUL character if it has one. */
  method Parse(s: string) returns (r: Result, ghost sigs: seq<Sig>)
    ensures r.Parsed? ==> StartsAll(s, sigs, r.rest, '\0') && r.node.children == Trees(sigs)
    ensures r.Parsed? ==> r.node.current == PrintAll(sigs) && (sigs == [] ==> r.rest == "")
    ensures !r.Parsed? ==> forall ts :: !StartsAll(s, ts, "", '\0')
    ensures r.Undefined? ==> (s != "" && s[0] == '\0') || exists ts, more :: BeginsAll(s, ts, more)
    ensures r.Invalid? ==> forall ts, more :: !BeginsAll(s, ts, more)
  {
    r, sigs := ParseSequence(s, '\0');
    if !r.Parsed? {
      return;
    }
    TreesTexts(sigs);
    if |r.node.children| > 0 {
      return;
    }
    if r.rest != "" {
      forall ts ensures !StartsAll(s, ts, "", '\0') {
        if StartsAll(s, ts, "", '\0') {
          PrintAllUnique(ts, "", sigs, r.rest, '\0');
        }
      }
      return Undefined, sigs;
    }
    r := Parsed(Node(s, r.node.children), r.rest);
  }

  /** Parsing the text of a signature gives that signature's own tree. */
  lemma RoundTrip(s: string, sigs: seq<Sig>, ts: seq<Sig>, rest: string)
    requires StartsAll(s, sigs, rest, '\0') && ProperAll(ts) && s == PrintAll(ts)
    ensures ts == sigs && rest == ""
  {
    assert PrintAll(ts) + "" == PrintAll(sigs) + rest;
    PrintAllUnique(ts, "", sigs, rest, '\0');
  }
}
