/**
 * The class-schema type resolver: property types are looked up, case-insensitively,
 * in a two-level tree (class, then property) built once from the schema's class
 * list and cached on the resolver.
 */
module PropertyTypeResolution {
  import opened Wrappers
  import opened Types

  /** One property of a schema class: its name and the entry the schema stores for it. */
  datatype PropertyEntry = PropertyEntry(name: string, entry: Mixed)

  /** One class of the schema's `classes` list, properties in declaration order. */
  datatype ClassEntry = ClassEntry(name: string, properties: seq<PropertyEntry>)

  // ---------------------------------------------------------------------------
  // The type tree
  // ---------------------------------------------------------------------------

  /** The properties of one class keyed by lower-cased name; a later colliding key overwrites. */
  function PropertyMap(ps: seq<PropertyEntry>): map<string, Mixed>
  {
    if ps == [] then map[]
    else PropertyMap(ps[..|ps| - 1])[Lower(ps[|ps| - 1].name) := ps[|ps| - 1].entry]
  }

  /**
   * The type tree: class name (lower-cased) to the array of its properties; a
   * later class whose name collides replaces the earlier one's properties outright.
   */
  function TypeTreeOf(classes: seq<ClassEntry>): map<string, Mixed>
  {
    if classes == [] then map[]
    else
      var c := classes[|classes| - 1];
      TypeTreeOf(classes[..|classes| - 1])[Lower(c.name) := Arr(PropertyMap(c.properties))]
  }

  /**
   * The walk of `getType` from a position in the tree: every context node must be
   * set (case-insensitively) or the result is null; then the property's entry,
   * or null when it is not set.
   */
  function TypeAt(position: Mixed, context: seq<string>, propertyName: string): Mixed
  {
    if context == [] then
      if IsSet(position, Lower(propertyName)) then Index(position, Lower(propertyName)) else Null
    else if !IsSet(position, Lower(context[0])) then Null
    else TypeAt(Index(position, Lower(context[0])), context[1..], propertyName)
  }

  /** `applyDeep` on the tree: children of functions and objects get an empty context. */
  function ResolveDeep(tree: map<string, Mixed>, t: PToken, context: seq<string>): PToken
  {
    match t
    case PFunction(name, args, ret) => PFunction(name, ResolveChildren(tree, args, []), ret)
    case PObject(members, ty) => PObject(ResolveChildren(tree, members, []), ty)
    case PProperty(name, _) => PProperty(name, Some(TypeAt(Arr(tree), context, name)))
    case PParameter(_, _) => t
  }

  /** `applyChildren` on the tree: each child resolved on its own in the given context, order kept. */
  function ResolveChildren(tree: map<string, Mixed>, ts: seq<PToken>, context: seq<string>): (r: seq<PToken>)
    ensures |r| == |ts|
    ensures forall i :: 0 <= i < |ts| ==> r[i] == ResolveDeep(tree, ts[i], context)
  {
    seq(|ts|, i requires 0 <= i < |ts| => ResolveDeep(tree, ts[i], context))
  }

  // ---------------------------------------------------------------------------
  // The resolver
  // ---------------------------------------------------------------------------

  class PropertyTypeResolver {
    /** `$this->schema['classes']`. */
    const classes: seq<ClassEntry>
    /** The cached type tree, `null` until first asked for. */
    var typeTree: Option<map<string, Mixed>>

    /** A cached tree is the tree of the schema. */
    ghost predicate Valid()
      reads this
    {
      typeTree.Some? ==> typeTree.value == TypeTreeOf(classes)
    }

    /** The tree is only ever filled in, never replaced. */
    twostate predicate CacheKept()
      reads this
    {
      old(typeTree) == typeTree || (old(typeTree).None? && typeTree == Some(TypeTreeOf(classes)))
    }

    constructor(classes: seq<ClassEntry>)
      ensures this.classes == classes && typeTree.None? && Valid()
    {
      this.classes := classes;
      typeTree := None;
    }

    /** `getTypeTree`: build the tree with two nested loops the first time, return the cache afterwards. */
    method GetTypeTree() returns (tree: map<string, Mixed>)
      requires Valid()
      modifies this
      ensures Valid() && CacheKept()
      ensures typeTree == Some(tree) && tree == TypeTreeOf(classes)
      ensures old(typeTree).Some? ==> typeTree == old(typeTree)
    {
      if typeTree.None? {
        var types: map<string, Mixed> := map[];
        var i := 0;
        while i < |classes|
          invariant 0 <= i <= |classes|
          invariant types == TypeTreeOf(classes[..i])
        {
          var c := classes[i];
          var lc := Lower(c.name);
          types := types[lc := Arr(map[])];
          var j := 0;
          while j < |c.properties|
            invariant 0 <= j <= |c.properties|
            invariant types == TypeTreeOf(classes[..i])[lc := Arr(PropertyMap(c.properties[..j]))]
          {
            var p := c.properties[j];
            types := types[lc := Arr(types[lc].entries[Lower(p.name) := p.entry])];
            assert c.properties[..j + 1][..j] == c.properties[..j];
            j := j + 1;
          }
          assert c.properties[..j] == c.properties;
          assert classes[..i + 1][..i] == classes[..i];
          i := i + 1;
        }
        assert classes[..i] == classes;
        typeTree := Some(types);
      }
      return typeTree.value;
    }

    /** `getType`: walk the context through the tree node by node, then read the property. */
    method GetType(propertyName: string, context: seq<string>) returns (r: Mixed)
      requires Valid()
      modifies this
      ensures Valid() && CacheKept()
      ensures r == TypeAt(Arr(TypeTreeOf(classes)), context, propertyName)
    {
      var tree := GetTypeTree();
      var position := Arr(tree);
      var i := 0;
      while i < |context|
        invariant 0 <= i <= |context|
        invariant TypeAt(Arr(tree), context, propertyName) == TypeAt(position, context[i..], propertyName)
      {
        var node := context[i];
        if !IsSet(position, Lower(node)) {
          return Null;
        }
        position := Index(position, Lower(node));
        i := i + 1;
      }
      if IsSet(position, Lower(propertyName)) {
        return Index(position, Lower(propertyName));
      }
      return Null;
    }

    /** `applyChildren`: resolve each child in the context given, in order. */
    method ApplyChildren(tokens: seq<PToken>, context: seq<string>) returns (r: seq<PToken>)
      requires Valid()
      modifies this
      ensures Valid() && CacheKept()
      ensures r == ResolveChildren(TypeTreeOf(classes), tokens, context)
      decreases tokens, 0
    {
      r := tokens;
      var idx := 0;
      while idx < |tokens|
        invariant 0 <= idx <= |tokens| && |r| == |tokens|
        invariant Valid() && CacheKept()
        invariant forall k :: 0 <= k < idx ==> r[k] == ResolveDeep(TypeTreeOf(classes), tokens[k], context)
        invariant forall k :: idx <= k < |tokens| ==> r[k] == tokens[k]
      {
        var sub := ApplyDeep(tokens[idx], context);
        r := r[idx := sub];
        idx := idx + 1;
      }
    }

    /** `applyDeep`: children of functions and objects start again from an empty context. */
    method ApplyDeep(token: PToken, context: seq<string>) returns (r: PToken)
      requires Valid()
      modifies this
      ensures Valid() && CacheKept()
      ensures r == ResolveDeep(TypeTreeOf(classes), token, context)
      decreases token, 1
    {
      match token {
        case PFunction(name, args, ret) =>
          var kids := ApplyChildren(args, []);
          r := PFunction(name, kids, ret);
        case PObject(members, ty) =>
          var kids := ApplyChildren(members, []);
          r := PObject(kids, ty);
        case PProperty(name, _) =>
          var ty := GetType(name, context);
          r := PProperty(name, Some(ty));
        case PParameter(_, _) =>
          r := token;
      }
    }

    /** `apply` as written: the request is resolved (filling the cache) and the result dropped. */
    method Apply(request: PToken) returns (r: Option<PToken>)
      requires Valid()
      modifies this
      ensures Valid() && CacheKept()
      ensures r.None?
    {
      var _ := ApplyDeep(request, []);
      r := None;
    }

    /** `apply` as evidently intended: the resolved request is returned. */
    method ApplyReturning(request: PToken) returns (r: PToken)
      requires Valid()
      modifies this
      ensures Valid() && CacheKept()
      ensures r == ResolveDeep(TypeTreeOf(classes), request, [])
    {
      r := ApplyDeep(request, []);
    }
  }

  // ---------------------------------------------------------------------------
  // Properties
  // ---------------------------------------------------------------------------

  /** `strtolower` is idempotent. */
  lemma LowerLower(s: string)
    ensures Lower(Lower(s)) == Lower(s)
  {
  }

  /** The keys of a property map are the lower-cased property names. */
  lemma {:induction false} PropertyMapKeys(ps: seq<PropertyEntry>)
    ensures forall k :: k in PropertyMap(ps) ==> IsLower(k)
    ensures forall k :: k in PropertyMap(ps) <==> exists i :: 0 <= i < |ps| && Lower(ps[i].name) == k
  {
    if ps != [] {
      var front := ps[..|ps| - 1];
      PropertyMapKeys(front);
      LowerIsLower(ps[|ps| - 1].name);
      forall k | k in PropertyMap(ps)
        ensures exists i :: 0 <= i < |ps| && Lower(ps[i].name) == k
      {
        if k != Lower(ps[|ps| - 1].name) {
          assert k in PropertyMap(front);
          var i :| 0 <= i < |front| && Lower(front[i].name) == k;
          assert ps[i] == front[i];
        }
      }
      forall k | exists i :: 0 <= i < |ps| && Lower(ps[i].name) == k
        ensures k in PropertyMap(ps)
      {
        var i :| 0 <= i < |ps| && Lower(ps[i].name) == k;
        if i < |front| {
          assert front[i] == ps[i];
        }
      }
    }
  }

  /** A property keeps the entry of its last occurrence among the case-insensitively equal names. */
  lemma {:induction false} PropertyMapLastWins(ps: seq<PropertyEntry>, i: nat)
    requires i < |ps|
    requires forall j :: i < j < |ps| ==> Lower(ps[j].name) != Lower(ps[i].name)
    ensures Lower(ps[i].name) in PropertyMap(ps)
    ensures PropertyMap(ps)[Lower(ps[i].name)] == ps[i].entry
  {
    if i < |ps| - 1 {
      var front := ps[..|ps| - 1];
      assert front[i] == ps[i];
      forall j | i < j < |front|
        ensures Lower(front[j].name) != Lower(front[i].name)
      {
        assert front[j] == ps[j];
      }
      PropertyMapLastWins(front, i);
    }
  }

  /**
   * The type tree has a lower-case key for every class name and no other key,
   * and each class maps to an array whose keys are lower case.
   */
  lemma {:induction false} TypeTreeKeys(classes: seq<ClassEntry>)
    ensures forall k :: k in TypeTreeOf(classes) ==> IsLower(k)
    ensures forall k :: k in TypeTreeOf(classes) ==>
      TypeTreeOf(classes)[k].Arr? && forall q :: q in TypeTreeOf(classes)[k].entries ==> IsLower(q)
    ensures forall k :: k in TypeTreeOf(classes) <==> exists i :: 0 <= i < |classes| && Lower(classes[i].name) == k
  {
    if classes != [] {
      var front := classes[..|classes| - 1];
      var c := classes[|classes| - 1];
      TypeTreeKeys(front);
      LowerIsLower(c.name);
      PropertyMapKeys(c.properties);
      forall k | k in TypeTreeOf(classes)
        ensures exists i :: 0 <= i < |classes| && Lower(classes[i].name) == k
      {
        if k != Lower(c.name) {
          assert k in TypeTreeOf(front);
          var i :| 0 <= i < |front| && Lower(front[i].name) == k;
          assert classes[i] == front[i];
        }
      }
      forall k | exists i :: 0 <= i < |classes| && Lower(classes[i].name) == k
        ensures k in TypeTreeOf(classes)
      {
        var i :| 0 <= i < |classes| && Lower(classes[i].name) == k;
        if i < |front| {
          assert front[i] == classes[i];
        }
      }
    }
  }

  /** A class keeps the properties of its last occurrence; earlier colliding classes are replaced, not merged. */
  lemma {:induction false} TypeTreeLastWins(classes: seq<ClassEntry>, i: nat)
    requires i < |classes|
    requires forall j :: i < j < |classes| ==> Lower(classes[j].name) != Lower(classes[i].name)
    ensures Lower(classes[i].name) in TypeTreeOf(classes)
    ensures TypeTreeOf(classes)[Lower(classes[i].name)] == Arr(PropertyMap(classes[i].properties))
  {
    if i < |classes| - 1 {
      var front := classes[..|classes| - 1];
      assert front[i] == classes[i];
      forall j | i < j < |front|
        ensures Lower(front[j].name) != Lower(front[i].name)
      {
        assert front[j] == classes[j];
      }
      TypeTreeLastWins(front, i);
    }
  }

  /** Every name in `strtolower` form. */
  function LowerAll(names: seq<string>): (r: seq<string>)
    ensures |r| == |names|
    ensures forall i :: 0 <= i < |names| ==> r[i] == Lower(names[i])
  {
    seq(|names|, i requires 0 <= i < |names| => Lower(names[i]))
  }

  /** The walk ignores letter case in the context and in the property name. */
  lemma {:induction false} TypeAtCaseInsensitive(position: Mixed, context: seq<string>, propertyName: string)
    ensures TypeAt(position, context, propertyName) == TypeAt(position, LowerAll(context), Lower(propertyName))
    decreases |context|
  {
    LowerLower(propertyName);
    if context != [] {
      LowerLower(context[0]);
      assert LowerAll(context)[1..] == LowerAll(context[1..]);
      TypeAtCaseInsensitive(Index(position, Lower(context[0])), context[1..], propertyName);
    }
  }

  /** The position reached by following a path of (lower-cased) keys from a position. */
  function TypeAtPath(position: Mixed, path: seq<string>): Mixed
    decreases |path|
  {
    if path == [] then position else TypeAtPath(Index(position, Lower(path[0])), path[1..])
  }

  /** Every node of the path is set at the position the walk has reached before it. */
  predicate AllSet(position: Mixed, path: seq<string>)
  {
    forall i :: 0 <= i < |path| ==> IsSet(TypeAtPath(position, path[..i]), Lower(path[i]))
  }

  /**
   * The walk succeeds exactly when every context node is set along the way and
   * the property is set at the end, and then it gives the entry found there;
   * otherwise it is null.
   */
  lemma {:induction false} TypeAtWalk(position: Mixed, context: seq<string>, propertyName: string)
    ensures var end := TypeAtPath(position, context);
      TypeAt(position, context, propertyName)
        == if AllSet(position, context) && IsSet(end, Lower(propertyName)) then Index(end, Lower(propertyName)) else Null
    decreases |context|
  {
    if context != [] {
      var node := context[0];
      var rest := context[1..];
      assert context[..0] == [];
      if IsSet(position, Lower(node)) {
        var next := Index(position, Lower(node));
        TypeAtWalk(next, rest, propertyName);
        forall i | 0 <= i < |rest|
          ensures TypeAtPath(position, context[..i + 1]) == TypeAtPath(next, rest[..i])
        {
          assert context[..i + 1][1..] == rest[..i];
        }
        assert AllSet(position, context) <==> AllSet(next, rest) by {
          if AllSet(next, rest) {
            forall i | 0 <= i < |context|
              ensures IsSet(TypeAtPath(position, context[..i]), Lower(context[i]))
            {
              if i > 0 {
                assert context[i] == rest[i - 1];
              }
            }
          }
          if AllSet(position, context) {
            forall i | 0 <= i < |rest|
              ensures IsSet(TypeAtPath(next, rest[..i]), Lower(rest[i]))
            {
              assert IsSet(TypeAtPath(position, context[..i + 1]), Lower(context[i + 1]));
            }
          }
        }
      } else {
        assert !IsSet(TypeAtPath(position, context[..0]), Lower(context[0]));
      }
    }
  }

  /**
   * End to end: the property of a class named in a one-node context, both looked
   * up in any letter case, gives the entry of the last case-insensitive
   * occurrence of that property in the last occurrence of that class.
   */
  lemma SchemaLookup(classes: seq<ClassEntry>, i: nat, j: nat, className: string, propertyName: string)
    requires i < |classes| && j < |classes[i].properties|
    requires forall i' :: i < i' < |classes| ==> Lower(classes[i'].name) != Lower(classes[i].name)
    requires forall j' :: j < j' < |classes[i].properties| ==>
      Lower(classes[i].properties[j'].name) != Lower(classes[i].properties[j].name)
    requires Lower(className) == Lower(classes[i].name)
    requires Lower(propertyName) == Lower(classes[i].properties[j].name)
    requires classes[i].properties[j].entry != Null
    ensures TypeAt(Arr(TypeTreeOf(classes)), [className], propertyName) == classes[i].properties[j].entry
  {
    TypeTreeLastWins(classes, i);
    PropertyMapLastWins(classes[i].properties, j);
  }

  /** A class name that is not in the schema, in any letter case, gives null. */
  lemma UnknownClassGivesNull(classes: seq<ClassEntry>, className: string, propertyName: string)
    requires forall i :: 0 <= i < |classes| ==> Lower(classes[i].name) != Lower(className)
    ensures TypeAt(Arr(TypeTreeOf(classes)), [className], propertyName) == Null
  {
    TypeTreeKeys(classes);
  }

  /** Only property types change: with them dropped, the resolved tree is the input tree. */
  lemma {:induction false} ResolvedShape(tree: map<string, Mixed>, t: PToken, context: seq<string>)
    ensures Erased(ResolveDeep(tree, t, context)) == Erased(t)
    decreases t
  {
    match t
    case PFunction(name, args, ret) =>
      forall i | 0 <= i < |args|
        ensures Erased(ResolveChildren(tree, args, [])[i]) == Erased(args[i])
      {
        ResolvedShape(tree, args[i], []);
      }
      assert ErasedAll(ResolveChildren(tree, args, [])) == ErasedAll(args);
    case PObject(members, ty) =>
      forall i | 0 <= i < |members|
        ensures Erased(ResolveChildren(tree, members, [])[i]) == Erased(members[i])
      {
        ResolvedShape(tree, members[i], []);
      }
      assert ErasedAll(ResolveChildren(tree, members, [])) == ErasedAll(members);
    case PProperty(_, _) =>
    case PParameter(_, _) =>
  }

  /** Resolving a resolved tree again changes nothing. */
  lemma {:induction false} ResolveIdempotent(tree: map<string, Mixed>, t: PToken, context: seq<string>)
    ensures ResolveDeep(tree, ResolveDeep(tree, t, context), context) == ResolveDeep(tree, t, context)
    decreases t
  {
    match t
    case PFunction(name, args, ret) =>
      var kids := ResolveChildren(tree, args, []);
      forall i | 0 <= i < |args|
        ensures ResolveChildren(tree, kids, [])[i] == kids[i]
      {
        ResolveIdempotent(tree, args[i], []);
      }
      assert ResolveChildren(tree, kids, []) == kids;
    case PObject(members, ty) =>
      var kids := ResolveChildren(tree, members, []);
      forall i | 0 <= i < |members|
        ensures ResolveChildren(tree, kids, [])[i] == kids[i]
      {
        ResolveIdempotent(tree, members[i], []);
      }
      assert ResolveChildren(tree, kids, []) == kids;
    case PProperty(_, _) =>
    case PParameter(_, _) =>
  }

  /**
   * The context reaches no further than a bare property: the children of a
   * function or an object are resolved the same whatever context the call was given.
   */
  lemma ContextStopsAtChildren(tree: map<string, Mixed>, t: PToken, c1: seq<string>, c2: seq<string>)
    requires !t.PProperty?
    ensures ResolveDeep(tree, t, c1) == ResolveDeep(tree, t, c2)
  {
  }

  /**
   * A request `get(device)` over a schema of the classes `Agent` and
   * `ProtectedMachine` (whatever their properties): the property is typed null,
   * since no class is called `device` in any letter case.
   */
  lemma DeviceIsUntyped(agent: seq<PropertyEntry>, machine: seq<PropertyEntry>)
    ensures var tree := TypeTreeOf([ClassEntry("Agent", agent), ClassEntry("ProtectedMachine", machine)]);
      ResolveDeep(tree, PFunction("get", [PProperty("device", None)], None), [])
        == PFunction("get", [PProperty("device", Some(Null))], None)
  {
    var classes := [ClassEntry("Agent", agent), ClassEntry("ProtectedMachine", machine)];
    var tree := TypeTreeOf(classes);
    TypeTreeKeys(classes);
    assert |Lower("Agent")| == 5 && |Lower("ProtectedMachine")| == 16;
    assert "device" !in tree;
    var kids := ResolveChildren(tree, [PProperty("device", None)], []);
    assert kids == [PProperty("device", Some(Null))];
  }
}
