/**
 * The schema-backed type resolver: walks a positional token tree and gives every
 * property token the type the schema stores for its dotted path. The path of a
 * property is the context computed from the leftmost argument chain of the
 * function it sits in, followed by its own name.
 */
module TypeResolution {
  import opened Wrappers
  import opened Types

  /** `implode('.', $parts)`. */
  function Implode(parts: seq<string>): (r: string)
    ensures |parts| == 1 ==> r == parts[0]
  {
    if parts == [] then ""
    else if |parts| == 1 then parts[0]
    else parts[0] + "." + Implode(parts[1..])
  }

  /**
   * The property name that the leftmost argument chain of a function ends in:
   * follow leftmost arguments while they are functions; a property there gives its
   * name, anything else (or a function without arguments) gives none.
   */
  function LeftmostProperty(f: PToken): Option<string>
  {
    match f
    case PFunction(_, args, _) =>
      if args == [] then None
      else if args[0].PFunction? then LeftmostProperty(args[0])
      else if args[0].PProperty? then Some(args[0].name)
      else None
    case _ => None
  }

  /**
   * A resolver over a schema. `getProperty` of the schema is an oracle from a
   * dotted path to the stored entry, or none when the schema has no such property.
   */
  datatype TypeResolver = TypeResolver(schema: string -> Option<Mixed>)
  {
    /**
     * `getType`: the schema entry for the context followed by the property name,
     * joined with dots; element 0 of that entry, or null when there is none.
     */
    function GetType(propertyName: string, context: seq<string>): (r: Mixed)
      ensures schema(Implode(context + [propertyName])).None? ==> r == Null
      ensures schema(Implode(context + [propertyName])).Some? ==>
        r == Index(schema(Implode(context + [propertyName])).value, "0")
    {
      var property := schema(Implode(context + [propertyName]));
      if property.Some? then Index(property.value, "0") else Null
    }

    /**
     * `getFunctionContext`: the context a function's arguments are resolved in.
     * It is the outer context, with the leftmost chain's property name put in
     * front when the chain ends in a property.
     */
    function FunctionContext(f: PToken, context: seq<string>): (r: seq<string>)
      requires f.PFunction?
      ensures LeftmostProperty(f).None? ==> r == context
      ensures LeftmostProperty(f).Some? ==> r == [LeftmostProperty(f).value] + context
    {
      if f.args == [] then context
      else
        var leftMost := f.args[0];
        match leftMost
        case PFunction(_, _, _) => FunctionContext(leftMost, context)
        case PProperty(name, _) => [name] + context
        case _ => context
    }

    /** `applyChildren`: each child resolved on its own, in the same context, order kept. */
    function ApplyChildren(tokens: seq<PToken>, context: seq<string>): (r: seq<PToken>)
      ensures |r| == |tokens|
      ensures forall i :: 0 <= i < |tokens| ==> r[i] == ApplyDeep(tokens[i], context)
    {
      seq(|tokens|, i requires 0 <= i < |tokens| => ApplyDeep(tokens[i], context))
    }

    /**
     * `applyDeep`: a function's arguments are resolved in the function's context,
     * an object's members in the current one, a property gets its type at
     * position 2, and a parameter is returned unchanged.
     */
    function ApplyDeep(t: PToken, context: seq<string>): (r: PToken)
      ensures KindOf(r) == KindOf(t)
    {
      match t
      case PFunction(name, args, ret) => PFunction(name, ApplyChildren(args, FunctionContext(t, context)), ret)
      case PObject(members, ty) => PObject(ApplyChildren(members, context), ty)
      case PProperty(name, _) => PProperty(name, Some(GetType(name, context)))
      case PParameter(_, _) => t
    }

    /** `apply`: resolve the request from an empty context; the token kind is kept. */
    function Apply(request: PToken): (r: PToken)
      ensures KindOf(r) == KindOf(request)
      ensures Erased(r) == Erased(request)
    {
      ShapePreserved(this, request, []);
      ApplyDeep(request, [])
    }
  }

  // ---------------------------------------------------------------------------
  // Properties
  // ---------------------------------------------------------------------------

  /**
   * Only property types change: with the property types dropped, the resolved
   * tree is the input tree (names, kinds, child order, function return slots and
   * object type slots all kept).
   */
  lemma {:induction false} ShapePreserved(res: TypeResolver, t: PToken, context: seq<string>)
    ensures Erased(res.ApplyDeep(t, context)) == Erased(t)
    decreases t
  {
    match t
    case PFunction(name, args, ret) =>
      var c := res.FunctionContext(t, context);
      forall i | 0 <= i < |args|
        ensures Erased(res.ApplyChildren(args, c)[i]) == Erased(args[i])
      {
        ShapePreserved(res, args[i], c);
      }
      assert ErasedAll(res.ApplyChildren(args, c)) == ErasedAll(args);
    case PObject(members, ty) =>
      forall i | 0 <= i < |members|
        ensures Erased(res.ApplyChildren(members, context)[i]) == Erased(members[i])
      {
        ShapePreserved(res, members[i], context);
      }
      assert ErasedAll(res.ApplyChildren(members, context)) == ErasedAll(members);
    case PProperty(_, _) =>
    case PParameter(_, _) =>
  }

  /** The leftmost chain depends only on names and kinds, not on type slots. */
  lemma {:induction false} LeftmostPropertyOfShape(a: PToken, b: PToken)
    requires Erased(a) == Erased(b)
    ensures LeftmostProperty(a) == LeftmostProperty(b)
    decreases a
  {
    match a
    case PFunction(_, args, _) =>
      assert ErasedAll(args) == ErasedAll(b.args);
      if args != [] {
        assert Erased(args[0]) == Erased(b.args[0]);
        if args[0].PFunction? {
          LeftmostPropertyOfShape(args[0], b.args[0]);
        }
      }
    case _ =>
  }

  /** Resolving twice in the same context gives the same tree as resolving once. */
  lemma {:induction false} ApplyDeepIdempotent(res: TypeResolver, t: PToken, context: seq<string>)
    ensures res.ApplyDeep(res.ApplyDeep(t, context), context) == res.ApplyDeep(t, context)
    decreases t
  {
    match t
    case PFunction(name, args, ret) =>
      var once := res.ApplyDeep(t, context);
      ShapePreserved(res, t, context);
      LeftmostPropertyOfShape(once, t);
      var c := res.FunctionContext(t, context);
      assert res.FunctionContext(once, context) == c;
      var kids := res.ApplyChildren(args, c);
      forall i | 0 <= i < |args|
        ensures res.ApplyChildren(kids, c)[i] == kids[i]
      {
        ApplyDeepIdempotent(res, args[i], c);
      }
      assert res.ApplyChildren(kids, c) == kids;
    case PObject(members, ty) =>
      var kids := res.ApplyChildren(members, context);
      forall i | 0 <= i < |members|
        ensures res.ApplyChildren(kids, context)[i] == kids[i]
      {
        ApplyDeepIdempotent(res, members[i], context);
      }
      assert res.ApplyChildren(kids, context) == kids;
    case PProperty(_, _) =>
    case PParameter(_, _) =>
  }

  /**
   * Every argument of a function, the leftmost property included, is resolved in
   * the one context taken from the leftmost argument: a leading property `p` is
   * itself looked up under the path `p.….p`.
   */
  lemma LeftmostPropertyInOwnContext(res: TypeResolver, name: string, p: string, ty: Option<Mixed>,
                                     rest: seq<PToken>, ret: Option<Mixed>, context: seq<string>)
    ensures var f := PFunction(name, [PProperty(p, ty)] + rest, ret);
      var r := res.ApplyDeep(f, context);
      r.PFunction? && |r.args| == 1 + |rest|
      && r.args[0] == PProperty(p, Some(res.GetType(p, [p] + context)))
      && forall i :: 0 <= i < |rest| ==> r.args[1 + i] == res.ApplyDeep(rest[i], [p] + context)
  {
    var f := PFunction(name, [PProperty(p, ty)] + rest, ret);
    assert LeftmostProperty(f) == Some(p);
  }

  /** A context of one name and a property give the two-part dotted path. */
  lemma TwoPartPath(q: string, p: string)
    ensures Implode([q] + [p]) == q + "." + p
  {
    assert ([q] + [p])[1..] == [p];
  }
}
