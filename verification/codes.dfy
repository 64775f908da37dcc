// The type codes and their meaning, and texts checked and parsed in full.

module Codes {
  import opened Grammar
  import opened Signatures

  // ---- what a code means --------------------------------------------------------------------

  /** What a basic type transports (D-Bus Specification, section "Type System"). */
  datatype Wire = Truth | Number(signed: bool, bits: nat) | Real | Text | Path | Signature | Descriptor

  datatype Meaning = Carries(wire: Wire) | Container | Unknown

  /** The table of the specification, on characters alone. */
  function Means(c: char): Meaning {
    match c
    case 'y' => Carries(Number(false, 8))
    case 'b' => Carries(Truth)
    case 'n' => Carries(Number(true, 16))
    case 'q' => Carries(Number(false, 16))
    case 'i' => Carries(Number(true, 32))
    case 'u' => Carries(Number(false, 32))
    case 'x' => Carries(Number(true, 64))
    case 't' => Carries(Number(false, 64))
    case 'd' => Carries(Real)
    case 's' => Carries(Text)
    case 'o' => Carries(Path)
    case 'g' => Carries(Signature)
    case 'h' => Carries(Descriptor)
    case 'a' => Container
    case 'r' => Container
    case 'v' => Container
    case _ => Unknown
  }

  /** The parser takes exactly these as basic. */
  lemma BasicCodes(c: char)
    ensures IsBasicCode(c) <==> Means(c).Carries?
  {
    var codes := "ybnqiuxtdsogh";
    assert codes[0] == 'y' && codes[1] == 'b' && codes[2] == 'n' && codes[3] == 'q' && codes[4] == 'i';
    assert codes[5] == 'u' && codes[6] == 'x' && codes[7] == 't' && codes[8] == 'd' && codes[9] == 's';
    assert codes[10] == 'o' && codes[11] == 'g' && codes[12] == 'h';
  }

  /** The text generated for a simple value has one character, which means just the value's type: an
      int64 and a uint64, an int and an unsigned int of 32 bits, a double, a bool, a string. */
  lemma CodeMeans(t: Type)
    ensures Plain(Simple(t)) && |Print(SigOf(Simple(t)))| == 1
    ensures var wire := Means(Print(SigOf(Simple(t)))[0]);
      match t
      case Bool => wire == Carries(Truth)
      case Int => wire == Carries(Number(true, 64))
      case Uint => wire == Carries(Number(false, 64))
      case Nint => wire == Carries(Number(true, 32))
      case Nuint => wire == Carries(Number(false, 32))
      case Float => wire == Carries(Real)
      case String => wire == Carries(Text)
      case StringLiteral => wire == Carries(Text)
  {
    SimpleTexts(Simple(t));
    hide SigOf, Print, Plain;
  }

  /** The check lets an integer stand for any integer of at least 16 bits, a string for a string or an
      object path, a bool and a double for themselves; it aborts where a container is expected. */
  lemma CompatibleMeans(t: Type, c: char)
    ensures Compatible(t, c) == Yes <==>
      match t
      case Bool => c == 'b'
      case Int => Means(c).Carries? && Means(c).wire.Number? && Means(c).wire.bits >= 16
      case Uint => Means(c).Carries? && Means(c).wire.Number? && Means(c).wire.bits >= 16
      case Nint => Means(c).Carries? && Means(c).wire.Number? && Means(c).wire.bits >= 16
      case Nuint => Means(c).Carries? && Means(c).wire.Number? && Means(c).wire.bits >= 16
      case Float => c == 'd'
      case String => c == 's' || c == 'o'
      case StringLiteral => false
    ensures Compatible(t, c) == AssertFails <==> c == 'a' || c == 'r' || c == 'v'
  {
    var numbers := "nixqut";
    assert numbers[0] == 'n' && numbers[1] == 'i' && numbers[2] == 'x';
    assert numbers[3] == 'q' && numbers[4] == 'u' && numbers[5] == 't';
    assert "so"[0] == 's' && "so"[1] == 'o';
    assert "arv"[0] == 'a' && "arv"[1] == 'r' && "arv"[2] == 'v';
  }

  // ---- texts of containers ----------------------------------------------------------------------

  lemma PrintIs(sig: Sig)
    ensures match sig
      case Basic(c) => Print(sig) == [c]
      case Variant => Print(sig) == "v"
      case ArrayOf(e) => Print(sig) == "a" + Print(e)
      case Struct(fields) => Print(sig) == "(" + PrintAll(fields) + ")"
  {
  }

  lemma PrintAllIs(sigs: seq<Sig>, sig: Sig)
    ensures PrintAll([]) == "" && PrintAll(sigs + [sig]) == PrintAll(sigs) + Print(sig)
  {
    PrintAllMore(sigs, sig);
  }

  // ---- whole runs -------------------------------------------------------------------------------

  /** An array of structs, parsed into the nodes of all its parts. */
  method ParseRun() returns (r: Result)
    ensures r == Parsed(Node("a(ix)", [Node("a(ix)", [Node("(ix)", [Node("i", []), Node("x", [])])])]), "")
  {
    hide Print, PrintAll, Tree, Trees, Proper;
    var s := "a(ix)";
    ghost var sigs;
    r, sigs := Parse(s);
    ghost var sig := ArrayOf(Struct([Basic('i'), Basic('x')]));
    StructText();
    assert s == PrintAll([sig]) + "";
    assert StartsAll(s, [sig], "", '\0');
    RoundTrip(s, sigs, [sig], r.rest);
  }

  lemma StructText()
    ensures var e := Struct([Basic('i'), Basic('x')]);
      && ProperAll([ArrayOf(e)]) && PrintAll([ArrayOf(e)]) == "a(ix)"
      && Trees([ArrayOf(e)]) == [Node("a(ix)", [Node("(ix)", [Node("i", []), Node("x", [])])])]
  {
    var i, x := Basic('i'), Basic('x');
    var e := Struct([i, x]);
    PrintAllMore([], i);
    PrintAllMore([i], x);
    assert [] + [i] == [i] && [i] + [x] == [i, x];
    assert Print(i) == "i" && Print(x) == "x" && Print(e) == "(ix)" && Print(ArrayOf(e)) == "a(ix)";
    assert Tree(e) == Node("(ix)", [Node("i", []), Node("x", [])]);
    PrintAllMore([], ArrayOf(e));
    assert [] + [ArrayOf(e)] == [ArrayOf(e)];
  }

  /** A tuple of an integer, an array of strings and a variant, from value to text. */
  method SignatureRun() returns (r: Generated, text: array?<char>)
    ensures text != null && text[..] == "(xasv)\0"
    ensures r == Made(Node("(xasv)", [Node("x", []), Node("as", [Node("s", [])]), Node("v", [])]))
  {
    hide Makes, Fits, Verified, SigOf, Tree, Print, Bare, Snug, Plain, Listed, Untyped;
    var v := Tuple([Simple(Int), Array([Simple(String)]), Boxed(Simple(Bool))]);
    TupleMakes();
    TupleText();
    var late;
    r, text, late := TypeSignature(v);
    assert text[..] == text[..6] + [text[6]];
  }

  lemma TupleMakes()
    ensures var v := Tuple([Simple(Int), Array([Simple(String)]), Boxed(Simple(Bool))]);
      Plain(v) && Makes(v) && Snug(v)
  {
    hide Print, Bare, Uniform, SigOf, SameKind;
    StringsMake();
    SimpleTexts(Simple(Bool));
    var items := [Simple(Int), Array([Simple(String)]), Boxed(Simple(Bool))];
    forall e | e in items ensures Plain(e) && Makes(e) && Snug(e) {
      assert e == items[0] || e == items[1] || e == items[2];
    }
  }

  lemma StringsMake()
    ensures Plain(Array([Simple(String)])) && Makes(Array([Simple(String)])) && Snug(Array([Simple(String)]))
  {
    var strings := Array([Simple(String)]);
    assert SigOf(strings) == ArrayOf(Basic('s')) && Fits(Simple(String), Basic('s'));
  }

  lemma TupleText()
    requires Plain(Tuple([Simple(Int), Array([Simple(String)]), Boxed(Simple(Bool))]))
    ensures var sig := SigOf(Tuple([Simple(Int), Array([Simple(String)]), Boxed(Simple(Bool))]));
      && Print(sig) == "(xasv)"
      && Tree(sig) == Node("(xasv)", [Node("x", []), Node("as", [Node("s", [])]), Node("v", [])])
  {
    var sig := SigOf(Tuple([Simple(Int), Array([Simple(String)]), Boxed(Simple(Bool))]));
    var x, strings := Basic('x'), ArrayOf(Basic('s'));
    assert sig == Struct([x, strings, Variant]);
    FieldsText(x, strings, Variant);
    hide SigOf, PrintAll, Trees;
    assert Tree(Basic('s')) == Node("s", []) && Tree(x) == Node("x", []) && Tree(Variant) == Node("v", []);
    assert Print(strings) == "as" && Tree(strings) == Node("as", [Node("s", [])]);
  }

  lemma FieldsText(a: Sig, b: Sig, c: Sig)
    ensures PrintAll([a, b, c]) == Print(a) + Print(b) + Print(c)
    ensures Trees([a, b, c]) == [Tree(a), Tree(b), Tree(c)]
  {
    hide Print, Tree;
    PrintAllMore([], a);
    PrintAllMore([a], b);
    PrintAllMore([a, b], c);
    assert [] + [a] == [a] && [a] + [b] == [a, b] && [a, b] + [c] == [a, b, c];
  }

  /** The check on texts that go on behind the type: an array where a struct is expected, a tuple where an
      array is, and a variant's contents with and without a variant. */
  method CheckRun() returns (fields: Check, tuple: Check, boxed: Check, bare: Check)
    ensures fields == Rest("s") && tuple == Mismatch && boxed == Rest("as") && bare == Rest("as")
  {
    fields := Verify(Array([Simple(Int), Simple(Int)]), "(nt)s");
    tuple := Verify(Tuple([Simple(Int)]), "ax");
    boxed := Verify(Boxed(Simple(Bool)), "vas");
    bare := Verify(Boxed(Simple(Bool)), "bas");
    CompatibleMeans(Int, 'n');
    CompatibleMeans(Int, 't');
    assert [Simple(Int), Simple(Int)][1..] == [Simple(Int)] && [Simple(Int)][1..] == [];
    assert "(nt)s"[1..] == "nt)s" && "nt)s"[1..] == "t)s" && "t)s"[1..] == ")s" && ")s"[1..] == "s";
    assert "vas"[1..] == "as" && "bas"[1..] == "as";
  }

  /** Where it aborts, and where it only fails: an empty array has no first element, a simple value is
      compared with the code of a container, or with another basic code; nil has no type but a variant's. */
  method AbortRun() returns (empty: Check, container: Check, other: Check, nil: Check, unfit: Check)
    ensures empty == Aborts && container == Aborts && other == Mismatch && nil == Rest("") && unfit == Mismatch
  {
    empty := Verify(Array([]), "ax");
    container := Verify(Simple(Int), "ax");
    other := Verify(Simple(Int), "s");
    nil := Verify(Other, "v");
    unfit := Verify(Other, "x");
    CompatibleMeans(Int, 'a');
    CompatibleMeans(Int, 's');
    assert "v"[1..] == "";
  }
}
