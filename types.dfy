/**
 * Values shared by the function table, the resolvers and the compiler: the output
 * type constants, the PHP values that schemas and type slots hold, function
 * signatures, and tokens in the parser's positional format.
 */
module Types {
  import opened Wrappers

  /** The type constants `Output::TYPE_*` that signatures are written in. */
  datatype OutputType = Boolean | Integer | Float | String | List

  /**
   * A PHP value as it occurs in a schema entry or in the type slot of a token:
   * null, a type constant, a string, or an array (keys as strings; PHP stores the
   * numeric keys "0" and "1" of a list the same way).
   */
  datatype Mixed = Null | Type(t: OutputType) | Str(s: string) | Arr(entries: map<string, Mixed>)

  /** `$value[$key]` on a read: the entry, or null when there is none (PHP reports a notice). */
  function Index(v: Mixed, key: string): (r: Mixed)
    ensures r != Null ==> v.Arr? && key in v.entries && r == v.entries[key]
  {
    if v.Arr? && key in v.entries then v.entries[key] else Null
  }

  /** `isset($value[$key])`: an array with a non-null entry under that key. */
  predicate IsSet(v: Mixed, key: string)
  {
    v.Arr? && key in v.entries && v.entries[key] != Null
  }

  /** The PHP list `array($a, $b)`. */
  function Pair(a: Mixed, b: Mixed): (r: Mixed)
    ensures Index(r, "0") == a && Index(r, "1") == b
  {
    Arr(map["0" := a, "1" := b])
  }

  /** One overload: the declared argument types and the return type. */
  datatype Signature = Signature(arguments: seq<OutputType>, ret: OutputType)

  /** The overload table, indexed by function name, overloads in declaration order. */
  type SignatureTable = map<string, seq<Signature>>

  /**
   * A token of the parser's positional format `[kind, name, arguments, returnType?]`.
   * An `Option` slot is a position the array may lack.
   */
  datatype PToken =
    | PFunction(name: string, args: seq<PToken>, ret: Option<Mixed>)  // [TYPE_FUNCTION, name, args, type?]
    | PObject(members: seq<PToken>, ty: Option<Mixed>)                // [TYPE_OBJECT, members, type?]
    | PParameter(name: string, ty: Option<Mixed>)                     // [TYPE_PARAMETER, name, type?]
    | PProperty(name: string, ty: Option<Mixed>)                      // [TYPE_PROPERTY, name, type?]

  /** Reading an optional position: a position the array lacks reads as null. */
  function OrNull(slot: Option<Mixed>): (r: Mixed)
    ensures slot.None? ==> r == Null
    ensures slot.Some? ==> r == slot.value
  {
    if slot.Some? then slot.value else Null
  }

  /** The token kind, position 0 of the array. */
  datatype Kind = FunctionKind | ObjectKind | ParameterKind | PropertyKind

  function KindOf(t: PToken): Kind
  {
    match t
    case PFunction(_, _, _) => FunctionKind
    case PObject(_, _) => ObjectKind
    case PParameter(_, _) => ParameterKind
    case PProperty(_, _) => PropertyKind
  }

  /**
   * The token with every property's type slot dropped: what stays fixed when a
   * resolver fills in property types.
   */
  function Erased(t: PToken): PToken
  {
    match t
    case PFunction(name, args, ret) => PFunction(name, ErasedAll(args), ret)
    case PObject(members, ty) => PObject(ErasedAll(members), ty)
    case PParameter(_, _) => t
    case PProperty(name, _) => PProperty(name, None)
  }

  function ErasedAll(ts: seq<PToken>): (r: seq<PToken>)
    ensures |r| == |ts|
    ensures forall i :: 0 <= i < |ts| ==> r[i] == Erased(ts[i])
  {
    seq(|ts|, i requires 0 <= i < |ts| => Erased(ts[i]))
  }

  /** PHP's `strtolower` on one character (ASCII letters only). */
  function LowerChar(c: char): char
  {
    if 'A' <= c <= 'Z' then (c as int + 32) as char else c
  }

  /** PHP's `strtolower`. */
  function Lower(s: string): (r: string)
    ensures |r| == |s|
    ensures forall i :: 0 <= i < |s| ==> r[i] == LowerChar(s[i])
  {
    seq(|s|, i requires 0 <= i < |s| => LowerChar(s[i]))
  }

  /** A string with no upper-case ASCII letter. */
  predicate IsLower(s: string)
  {
    forall i :: 0 <= i < |s| ==> !('A' <= s[i] <= 'Z')
  }

  lemma LowerIsLower(s: string)
    ensures IsLower(Lower(s))
  {
  }
}
