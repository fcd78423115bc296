/**
 * The parameter type resolver: a walk over the positional token tree that, so
 * far, rebuilds every token from its own children. Its only observable effect
 * is the failure PHP raises when a position the walk descends into is not an
 * array.
 */
module ParameterTypeResolution {
  import opened Wrappers
  import opened Types

  /**
   * A type slot that `applyChildren` accepts: one the token lacks, or an array
   * whose every element is itself an array. Anything else fails the `array`
   * type declaration on the way down.
   */
  predicate WalkableSlot(ret: Option<Mixed>)
  {
    ret.None? || (ret.value.Arr? && forall k :: k in ret.value.entries ==> ret.value.entries[k].Arr?)
  }

  /** A tree the walk runs through without failing. */
  predicate WellFormed(t: PToken)
  {
    match t
    case PFunction(_, args, ret) => WalkableSlot(ret) && forall i :: 0 <= i < |args| ==> WellFormed(args[i])
    case PObject(members, _) => forall i :: 0 <= i < |members| ==> WellFormed(members[i])
    case _ => true
  }

  /** `applyChildren`: each child walked in order; the first failure aborts the walk. */
  function ApplyChildren(tokens: seq<PToken>): (r: Option<seq<PToken>>)
    ensures r.Some? ==> |r.value| == |tokens|
    ensures r.Some? ==> r.value == tokens
    decreases tokens, 0
  {
    if tokens == [] then Some([])
    else match ApplyDeep(tokens[0])
      case None => None
      case Some(head) =>
        match ApplyChildren(tokens[1..])
        case None => None
        case Some(tail) => assert [tokens[0]] + tokens[1..] == tokens; Some([head] + tail)
  }

  /**
   * `applyDeep`: a function's positions from 2 on (its arguments, then its type
   * slot when present) are walked as token lists, an object's members likewise,
   * and every other token is returned as it is. A walk that succeeds hands
   * back the token it was given.
   */
  function ApplyDeep(token: PToken): (r: Option<PToken>)
    ensures r.Some? ==> r.value == token
    ensures !token.PFunction? && !token.PObject? ==> r == Some(token)
    decreases token, 1
  {
    match token
    case PFunction(name, args, ret) =>
      (match ApplyChildren(args)
       case None => None
       case Some(kids) => if WalkableSlot(ret) then Some(PFunction(name, kids, ret)) else None)
    case PObject(members, ty) =>
      (match ApplyChildren(members)
       case None => None
       case Some(kids) => Some(PObject(kids, ty)))
    case _ => Some(token)
  }

  /** `apply`: the walk from the request's root. */
  function Apply(request: PToken): (r: Option<PToken>)
    ensures r.Some? <==> WellFormed(request)
    ensures r.Some? ==> r.value == request
  {
    WalkIsIdentity(request);
    ApplyDeep(request)
  }

  /** On a list of children the walk succeeds exactly when every child is well-formed, and then changes nothing. */
  lemma {:induction false} ChildrenWalkIsIdentity(tokens: seq<PToken>)
    ensures ApplyChildren(tokens) == if forall i :: 0 <= i < |tokens| ==> WellFormed(tokens[i]) then Some(tokens) else None
    decreases tokens, 0
  {
    if tokens != [] {
      WalkIsIdentity(tokens[0]);
      ChildrenWalkIsIdentity(tokens[1..]);
      assert [tokens[0]] + tokens[1..] == tokens;
      if !WellFormed(tokens[0]) {
        assert ApplyChildren(tokens).None?;
      } else if !(forall i :: 0 <= i < |tokens| - 1 ==> WellFormed(tokens[1..][i])) {
        var i :| 0 <= i < |tokens| - 1 && !WellFormed(tokens[1..][i]);
        assert !WellFormed(tokens[i + 1]);
      } else {
        forall i | 0 <= i < |tokens|
          ensures WellFormed(tokens[i])
        {
          if i > 0 {
            assert tokens[i] == tokens[1..][i - 1];
          }
        }
      }
    }
  }

  /** The walk succeeds exactly on well-formed trees, and then returns the tree unchanged. */
  lemma {:induction false} WalkIsIdentity(token: PToken)
    ensures ApplyDeep(token) == if WellFormed(token) then Some(token) else None
    decreases token, 1
  {
    match token
    case PFunction(name, args, ret) =>
      ChildrenWalkIsIdentity(args);
    case PObject(members, ty) =>
      ChildrenWalkIsIdentity(members);
    case _ =>
  }

  /** A function token whose type slot holds a bare type constant cannot be walked. */
  lemma ScalarSlotFails(name: string, args: seq<PToken>, t: OutputType)
    ensures Apply(PFunction(name, args, Some(Type(t)))).None?
  {
  }
}
