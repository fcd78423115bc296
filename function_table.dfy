/**
 * The function table: a static list of overloads per function name, looked up by
 * the exact list of argument types, and the output type of a positional function
 * token computed from the types its arguments carry.
 */
module FunctionTable {
  import opened Wrappers
  import opened Types

  // ---------------------------------------------------------------------------
  // Signatures as PHP values
  // ---------------------------------------------------------------------------

  /** `$signature['arguments']` as a PHP list of type constants. */
  function Declared(sig: Signature): (r: seq<Mixed>)
    ensures |r| == |sig.arguments|
    ensures forall k :: 0 <= k < |r| ==> r[k] == Type(sig.arguments[k])
  {
    seq(|sig.arguments|, k requires 0 <= k < |sig.arguments| => Type(sig.arguments[k]))
  }

  /** The index of the first overload whose argument list is identical (`===`) to `types`. */
  function FirstIdentical(sigs: seq<Signature>, types: seq<Mixed>): (r: Option<nat>)
    ensures r.Some? ==> r.value < |sigs| && Declared(sigs[r.value]) == types
    ensures r.Some? ==> forall j :: 0 <= j < r.value ==> Declared(sigs[j]) != types
    ensures r.None? ==> forall j :: 0 <= j < |sigs| ==> Declared(sigs[j]) != types
  {
    if sigs == [] then None
    else if Declared(sigs[0]) == types then Some(0)
    else match FirstIdentical(sigs[1..], types)
      case None => None
      case Some(k) => Some(k + 1)
  }

  // ---------------------------------------------------------------------------
  // Argument types of a positional function token
  // ---------------------------------------------------------------------------

  /** The type slot of an argument: position 3 of a function token, position 2 of the others. */
  function RawType(t: PToken): Mixed
  {
    match t
    case PFunction(_, _, ret) => OrNull(ret)
    case PObject(_, ty) => OrNull(ty)
    case PParameter(_, ty) => OrNull(ty)
    case PProperty(_, ty) => OrNull(ty)
  }

  /** The type an argument contributes: element 0 of an array type, the slot itself otherwise. */
  function ArgType(t: PToken): Mixed
  {
    var raw := RawType(t);
    if raw.Arr? then Index(raw, "0") else raw
  }

  /** The argument types collected in order, one per argument. */
  function ArgTypes(args: seq<PToken>): (r: seq<Mixed>)
    ensures |r| == |args|
    ensures forall k :: 0 <= k < |args| ==> r[k] == ArgType(args[k])
  {
    if args == [] then [] else ArgTypes(args[..|args| - 1]) + [ArgType(args[|args| - 1])]
  }

  /** The list shape recorded by the arguments: element 1 of the last array-typed slot, if any. */
  function ListShape(args: seq<PToken>): Mixed
  {
    if args == [] then Null
    else
      var last := RawType(args[|args| - 1]);
      if last.Arr? then Index(last, "1") else ListShape(args[..|args| - 1])
  }

  /**
   * The list shape is element 1 of the LAST argument whose type slot is an
   * array, and null when no argument has an array type.
   */
  lemma {:induction false} ListShapeIsLast(args: seq<PToken>)
    ensures (forall k :: 0 <= k < |args| ==> !RawType(args[k]).Arr?) ==> ListShape(args) == Null
    ensures forall k ::
              (0 <= k < |args| && RawType(args[k]).Arr? && (forall j :: k < j < |args| ==> !RawType(args[j]).Arr?))
              ==> ListShape(args) == Index(RawType(args[k]), "1")
  {
    if args != [] {
      var n := |args| - 1;
      var front := args[..n];
      ListShapeIsLast(front);
      assert forall k :: 0 <= k < n ==> front[k] == args[k];
      if !RawType(args[n]).Arr? {
        forall k | 0 <= k < |args| && RawType(args[k]).Arr? && (forall j :: k < j < |args| ==> !RawType(args[j]).Arr?)
          ensures ListShape(args) == Index(RawType(args[k]), "1")
        {
          assert k < n;
          assert RawType(front[k]).Arr? && forall j :: k < j < |front| ==> !RawType(front[j]).Arr?;
        }
      }
    }
  }

  /** Taking one more argument appends its type and records its shape when its slot is an array. */
  lemma ArgumentStep(args: seq<PToken>, i: nat)
    requires i < |args|
    ensures ArgTypes(args[..i + 1]) == ArgTypes(args[..i]) + [ArgType(args[i])]
    ensures ListShape(args[..i + 1]) == if RawType(args[i]).Arr? then Index(RawType(args[i]), "1") else ListShape(args[..i])
  {
    var p := args[..i + 1];
    assert p[..|p| - 1] == args[..i];
  }

  // ---------------------------------------------------------------------------
  // The table
  // ---------------------------------------------------------------------------

  /** A `Functions` object: the overload table it was constructed with. */
  datatype Functions = Functions(signatures: SignatureTable)
  {
    /**
     * `getSignature`: null for an unknown name or an empty overload list, otherwise
     * the first overload whose argument list is identical to `types` (same
     * length, same order), or null when there is none.
     */
    function GetSignature(name: string, types: seq<Mixed>): (r: Option<Signature>)
      ensures r.Some? ==> name in signatures && Declared(r.value) == types
      ensures r.Some? ==>
        (exists k :: 0 <= k < |signatures[name]| && signatures[name][k] == r.value
          && forall j :: 0 <= j < k ==> Declared(signatures[name][j]) != types)
      ensures r.None? <==> (name !in signatures
        || forall s :: s in signatures[name] ==> Declared(s) != types)
    {
      if name !in signatures || signatures[name] == [] then None
      else match FirstIdentical(signatures[name], types)
        case None => None
        case Some(k) => Some(signatures[name][k])
    }

    /**
     * The specification of `getOutputType`: null when no overload matches the
     * argument types, the pair `[list, shape]` when the matched overload returns a
     * list, and the matched return type otherwise.
     */
    function OutputTypeOf(name: string, args: seq<PToken>): Mixed
    {
      match GetSignature(name, ArgTypes(args))
      case None => Null
      case Some(s) => if s.ret == List then Pair(Type(List), ListShape(args)) else Type(s.ret)
    }

    /** `getOutputType`: one pass over the arguments, collecting their types and the last list shape. */
    method GetOutputType(f: PToken) returns (r: Mixed)
      requires f.PFunction?
      ensures r == OutputTypeOf(f.name, f.args)
    {
      var argTypes: seq<Mixed> := [];
      var list: Mixed := Null;
      var arguments := f.args;
      var i := 0;
      while i < |arguments|
        invariant 0 <= i <= |arguments|
        invariant argTypes == ArgTypes(arguments[..i])
        invariant list == ListShape(arguments[..i])
      {
        var argument := arguments[i];
        var argType: Mixed := Null;
        match argument {
          case PFunction(_, _, ret) => argType := OrNull(ret);
          case PObject(_, ty) => argType := OrNull(ty);
          case PParameter(_, ty) => argType := OrNull(ty);
          case PProperty(_, ty) => argType := OrNull(ty);
        }
        if argType.Arr? {
          list := Index(argType, "1");
          argType := Index(argType, "0");
        }
        argTypes := argTypes + [argType];
        ArgumentStep(arguments, i);
        i := i + 1;
      }
      assert arguments[..i] == arguments;
      var signature := GetSignature(f.name, argTypes);
      if signature.None? {
        return Null;
      }
      if signature.value.ret == List {
        return Pair(Type(List), list);
      }
      return Type(signature.value.ret);
    }
  }

  /**
   * The constructor: a null or empty table falls back to the built-in one, any
   * other table is used as given. The resulting table is never empty.
   */
  function New(given: Option<SignatureTable>): (fs: Functions)
    ensures given.Some? && given.value != map[] ==> fs.signatures == given.value
    ensures given.None? || given.value == map[] ==> fs.signatures == DefaultTable()
    ensures fs.signatures != map[]
  {
    if given.Some? && given.value != map[] then Functions(given.value)
    else
      assert "get" in DefaultTable();
      Functions(DefaultTable())
  }

  // ---------------------------------------------------------------------------
  // The built-in overload table
  // ---------------------------------------------------------------------------

  function Sig(arguments: seq<OutputType>, ret: OutputType): Signature
  {
    Signature(arguments, ret)
  }

  const AnythingToList: seq<Signature> :=
    [Sig([List, Boolean], List), Sig([List, Integer], List), Sig([List, Float], List), Sig([List, String], List)]

  const Aggregator: seq<Signature> := [Sig([Integer], Float), Sig([Float], Float)]

  const UnaryBoolean: seq<Signature> := [Sig([Boolean], Boolean)]

  const Plus: seq<Signature> :=
    [Sig([Integer, Integer], Integer), Sig([Float, Integer], Float), Sig([Integer, Float], Float),
     Sig([Float, Float], Float), Sig([String, String], String)]

  const Numeric: seq<Signature> :=
    [Sig([Integer, Integer], Integer), Sig([Float, Integer], Float), Sig([Integer, Float], Float),
     Sig([Float, Float], Float)]

  const Divides: seq<Signature> :=
    [Sig([Integer, Integer], Float), Sig([Float, Integer], Float), Sig([Integer, Float], Float),
     Sig([Float, Float], Float)]

  const StrictComparison: seq<Signature> :=
    [Sig([Boolean, Boolean], Boolean), Sig([Integer, Integer], Boolean), Sig([Float, Float], Boolean),
     Sig([String, String], Boolean)]

  const BinaryBoolean: seq<Signature> := [Sig([Boolean, Boolean], Boolean)]

  const Comparison: seq<Signature> :=
    [Sig([Integer, Integer], Boolean), Sig([Float, Integer], Boolean), Sig([Integer, Float], Boolean),
     Sig([Float, Float], Boolean), Sig([String, String], Boolean)]

  const StringFunction: seq<Signature> := [Sig([String], String)]

  /** `getSignatureList`: the built-in overloads of every function name; every name has at least one. */
  function DefaultTable(): (t: SignatureTable)
    ensures forall name :: name in t ==> |t[name]| > 0
  {
    map[
      "get" := AnythingToList,
      "average" := Aggregator,
      "sum" := Aggregator,
      "min" := Aggregator,
      "max" := Aggregator,
      "filter" := [Sig([List, Boolean], List)],
      "sort" := AnythingToList,
      "slice" := [Sig([List, Integer, Integer], List)],
      "not" := UnaryBoolean,
      "plus" := Plus,
      "minus" := Numeric,
      "times" := Numeric,
      "divides" := Divides,
      "equal" := StrictComparison,
      "and" := BinaryBoolean,
      "or" := BinaryBoolean,
      "notEqual" := StrictComparison,
      "less" := Comparison,
      "lessEqual" := Comparison,
      "greater" := Comparison,
      "greaterEqual" := Comparison,
      "match" := [Sig([String, String], Boolean)],
      "lowercase" := StringFunction,
      "uppercase" := StringFunction,
      "substring" := [Sig([String, Integer, Integer], String)],
      "length" := [Sig([String], Integer)],
      "assign" := StrictComparison
    ]
  }

  // ---------------------------------------------------------------------------
  // Properties
  // ---------------------------------------------------------------------------

  /**
   * The three outcomes of `getOutputType`: null exactly when no overload is
   * identical to the argument types; a `[list, shape]` pair carrying the last
   * recorded shape exactly when the matched overload returns a list; the bare
   * return type otherwise.
   */
  lemma OutputTypeCases(fs: Functions, name: string, args: seq<PToken>)
    ensures var r := fs.OutputTypeOf(name, args);
      && (r == Null <==>
            (name !in fs.signatures || forall s :: s in fs.signatures[name] ==> Declared(s) != ArgTypes(args)))
      && (r.Arr? <==> exists s :: fs.GetSignature(name, ArgTypes(args)) == Some(s) && s.ret == List)
      && (r.Arr? ==> Index(r, "0") == Type(List) && Index(r, "1") == ListShape(args))
      && (r.Type? ==> exists s :: s in fs.signatures[name] && Declared(s) == ArgTypes(args) && r == Type(s.ret))
  {
    match fs.GetSignature(name, ArgTypes(args))
    case None =>
    case Some(s) =>
      var k :| 0 <= k < |fs.signatures[name]| && fs.signatures[name][k] == s;
      assert s in fs.signatures[name];
  }

  /** Every built-in overload takes one to three arguments, so a longer argument list never matches. */
  lemma DefaultArity(name: string, types: seq<Mixed>)
    requires name in DefaultTable()
    ensures forall s :: s in DefaultTable()[name] ==> 1 <= |s.arguments| <= 3
    ensures |types| > 3 ==> Functions(DefaultTable()).GetSignature(name, types).None?
  {
    var t := DefaultTable();
    ShortUnaryLists();
    ShortBinaryLists();
    assert ShortOverloads(t[name]);
    if |types| > 3 {
      forall s | s in t[name]
        ensures Declared(s) != types
      {
        assert |Declared(s)| == |s.arguments|;
      }
    }
  }

  /** Every overload in the list takes one to three arguments. */
  predicate ShortOverloads(sigs: seq<Signature>)
  {
    forall s :: s in sigs ==> 1 <= |s.arguments| <= 3
  }

  /** The one-argument lists and the list operations are short. */
  lemma ShortUnaryLists()
    ensures ShortOverloads(AnythingToList) && ShortOverloads(Aggregator) && ShortOverloads(UnaryBoolean)
    ensures ShortOverloads(StringFunction)
  {
  }

  /** The operator lists are short. */
  lemma ShortBinaryLists()
    ensures ShortOverloads(Plus) && ShortOverloads(Numeric) && ShortOverloads(Divides)
    ensures ShortOverloads(StrictComparison) && ShortOverloads(BinaryBoolean) && ShortOverloads(Comparison)
  {
  }

  /** Every `divides` overload returns a float. */
  lemma DividesReturnsFloat()
    ensures "divides" in DefaultTable()
    ensures forall s :: s in DefaultTable()["divides"] ==> s.ret == Float
  {
  }

  /** Every overload of the comparison family returns a boolean. */
  lemma ComparisonsReturnBoolean(name: string)
    requires name == "equal" || name == "notEqual" || name == "less" || name == "lessEqual"
      || name == "greater" || name == "greaterEqual"
    ensures name in DefaultTable()
    ensures forall s :: s in DefaultTable()[name] ==> s.ret == Boolean
  {
  }

  /** Among the arithmetic operators only `plus` accepts two strings (and returns a string). */
  lemma OnlyPlusConcatenates(name: string)
    requires name == "plus" || name == "minus" || name == "times" || name == "divides"
    ensures name in DefaultTable()
    ensures Sig([String, String], String) in DefaultTable()[name] <==> name == "plus"
    ensures forall s :: s in DefaultTable()[name] && s.arguments == [String, String] ==> name == "plus" && s.ret == String
  {
  }

  /** `slice` is (list, integer, integer) to list and `length` is (string) to integer, with no other overloads. */
  lemma SliceAndLengthSignatures()
    ensures "slice" in DefaultTable() && DefaultTable()["slice"] == [Sig([List, Integer, Integer], List)]
    ensures "length" in DefaultTable() && DefaultTable()["length"] == [Sig([String], Integer)]
  {
  }

  /** `sort(list, boolean)` finds its first overload. */
  lemma SortLookup()
    ensures Functions(DefaultTable()).GetSignature("sort", [Type(List), Type(Boolean)])
      == Some(Sig([List, Boolean], List))
  {
    assert DefaultTable()["sort"] == AnythingToList;
    assert Declared(AnythingToList[0]) == [Type(List), Type(Boolean)];
  }

  /** `equal(boolean, boolean)` and `equal(integer, integer)` find the matching strict comparison. */
  lemma EqualLookups()
    ensures Functions(DefaultTable()).GetSignature("equal", [Type(Boolean), Type(Boolean)])
      == Some(Sig([Boolean, Boolean], Boolean))
    ensures Functions(DefaultTable()).GetSignature("equal", [Type(Integer), Type(Integer)])
      == Some(Sig([Integer, Integer], Boolean))
  {
    assert DefaultTable()["equal"] == StrictComparison;
    assert Declared(StrictComparison[0]) == [Type(Boolean), Type(Boolean)];
    assert Declared(StrictComparison[1]) == [Type(Integer), Type(Integer)];
    assert Declared(StrictComparison[0])[0] != Type(Integer);
  }

  /** `less(integer, float)` finds the mixed comparison. */
  lemma LessMixedLookup()
    ensures Functions(DefaultTable()).GetSignature("less", [Type(Integer), Type(Float)])
      == Some(Sig([Integer, Float], Boolean))
  {
    var types := [Type(Integer), Type(Float)];
    assert DefaultTable()["less"] == Comparison;
    assert Declared(Comparison[0])[1] != types[1];
    assert Declared(Comparison[1])[0] != types[0];
    assert Declared(Comparison[2]) == types;
    var k := FirstIdentical(Comparison, types);
    assert k.Some? && k.value == 2;
  }

  /** `equal(boolean, string)` has no identical overload, so the lookup gives null. */
  lemma EqualMismatchLookup()
    ensures Functions(DefaultTable()).GetSignature("equal", [Type(Boolean), Type(String)]).None?
  {
    var types := [Type(Boolean), Type(String)];
    assert DefaultTable()["equal"] == StrictComparison;
    forall s | s in StrictComparison
      ensures Declared(s) != types
    {
      assert |s.arguments| == 2;
      assert Declared(s)[0] != types[0] || Declared(s)[1] != types[1];
    }
  }

  /** `equal(integer, integer)` over a one-overload table gives boolean. */
  lemma ScalarOutputType()
    ensures Functions(map["equal" := [Sig([Integer, Integer], Boolean)]]).OutputTypeOf(
      "equal", [PProperty("one", Some(Type(Integer))), PProperty("two", Some(Type(Integer)))]) == Type(Boolean)
  {
  }

  /** `sort(listname, two)` whose first argument has a list type reports the list with its shape. */
  lemma ListOutputType()
    ensures var shape := Arr(map["one" := Str("two"), "three" := Str("four")]);
      Functions(map["sort" := [Sig([List, Integer], List)]]).OutputTypeOf(
        "sort", [PProperty("listname", Some(Pair(Type(List), shape))), PProperty("two", Some(Type(Integer)))])
      == Pair(Type(List), shape)
  {
  }
}
