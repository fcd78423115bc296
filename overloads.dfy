/**
 * Overload resolution as the expression compiler does it: the return type of a
 * function name for up to three operand types.
 */
module Overloads {
  import opened Wrappers
  import opened Types

  /**
   * A type as the compiler passes it around: an output type, PHP `null` (a
   * sub-expression without a type) or PHP `false` (an unknown function name).
   */
  datatype TypeValue = Typed(t: OutputType) | Untyped | Missing

  /** `$signature['arguments'][k]`: a slot past the end reads as null. */
  function Slot(sig: Signature, k: nat): TypeValue
  {
    if k < |sig.arguments| then Typed(sig.arguments[k]) else Untyped
  }

  /**
   * `signatureMatchesArguments`: slot 0 is always compared, slot 1 when there
   * are at least two slots, slot 2 when there are at least three; further slots
   * and further supplied types are ignored.
   */
  function SignatureMatches(sig: Signature, t1: TypeValue, t2: TypeValue, t3: TypeValue): (b: bool)
    ensures b <==> forall k :: 0 <= k < 3 && (k == 0 || k < |sig.arguments|) ==> Slot(sig, k) == [t1, t2, t3][k]
  {
    if Slot(sig, 0) != t1 then false
    else if |sig.arguments| >= 2 then
      if Slot(sig, 1) != t2 then false
      else if |sig.arguments| >= 3 then Slot(sig, 2) == t3
      else true
    else true
  }

  /** The index of the first overload that matches, in declaration order. */
  function FirstMatch(sigs: seq<Signature>, t1: TypeValue, t2: TypeValue, t3: TypeValue): (r: Option<nat>)
    ensures r.Some? ==> r.value < |sigs| && SignatureMatches(sigs[r.value], t1, t2, t3)
    ensures r.Some? ==> forall j :: 0 <= j < r.value ==> !SignatureMatches(sigs[j], t1, t2, t3)
    ensures r.None? ==> forall j :: 0 <= j < |sigs| ==> !SignatureMatches(sigs[j], t1, t2, t3)
  {
    if sigs == [] then None
    else if SignatureMatches(sigs[0], t1, t2, t3) then Some(0)
    else match FirstMatch(sigs[1..], t1, t2, t3)
      case None => None
      case Some(k) => Some(k + 1)
  }

  /**
   * `getReturnTypeFromFunctionName`: false for an unknown name; otherwise the
   * return type of the first matching overload, or of the first overload when
   * none matches (null when the list is empty).
   */
  function ReturnType(table: SignatureTable, name: string, t1: TypeValue, t2: TypeValue, t3: TypeValue): (r: TypeValue)
    ensures r == Missing <==> name !in table
    ensures name in table ==> var sigs := table[name];
      (exists k :: 0 <= k < |sigs| && SignatureMatches(sigs[k], t1, t2, t3)) ==>
        exists k :: 0 <= k < |sigs| && SignatureMatches(sigs[k], t1, t2, t3)
          && (forall j :: 0 <= j < k ==> !SignatureMatches(sigs[j], t1, t2, t3))
          && r == Typed(sigs[k].ret)
    ensures name in table ==> var sigs := table[name];
      (forall k :: 0 <= k < |sigs| ==> !SignatureMatches(sigs[k], t1, t2, t3)) ==>
        r == if |sigs| > 0 then Typed(sigs[0].ret) else Untyped
  {
    if name !in table then Missing
    else
      var sigs := table[name];
      match FirstMatch(sigs, t1, t2, t3)
      case Some(k) => Typed(sigs[k].ret)
      case None => if |sigs| > 0 then Typed(sigs[0].ret) else Untyped
  }

  /** The supplied types, listed. */
  function Supplied(t1: TypeValue, t2: TypeValue, t3: TypeValue): seq<TypeValue>
  {
    [t1, t2, t3]
  }

  /**
   * With one to three slots, a signature matches exactly when each declared
   * slot equals the supplied type at that position; types past the arity are ignored.
   */
  lemma MatchesDeclaredSlots(sig: Signature, t1: TypeValue, t2: TypeValue, t3: TypeValue)
    requires 1 <= |sig.arguments| <= 3
    ensures SignatureMatches(sig, t1, t2, t3)
        <==> forall k :: 0 <= k < |sig.arguments| ==> Typed(sig.arguments[k]) == Supplied(t1, t2, t3)[k]
  {
    if |sig.arguments| >= 2 {
      assert Slot(sig, 1) == Typed(sig.arguments[1]);
    }
    if |sig.arguments| == 3 {
      assert Slot(sig, 2) == Typed(sig.arguments[2]);
    }
  }

  /** With more than three slots only the first three are compared. */
  lemma MatchesFirstThreeSlots(sig: Signature, t1: TypeValue, t2: TypeValue, t3: TypeValue)
    requires |sig.arguments| > 3
    ensures SignatureMatches(sig, t1, t2, t3)
        <==> Typed(sig.arguments[0]) == t1 && Typed(sig.arguments[1]) == t2 && Typed(sig.arguments[2]) == t3
  {
  }

  /** A signature without slots reads null in slot 0, so it matches exactly an untyped first operand. */
  lemma EmptySignatureMatchesUntyped(sig: Signature, t1: TypeValue, t2: TypeValue, t3: TypeValue)
    requires |sig.arguments| == 0
    ensures SignatureMatches(sig, t1, t2, t3) <==> t1 == Untyped
  {
  }
}
