/**
 * The resolver chain: an ordered collection of resolvers, each a function from
 * request to request, applied one after another.
 */
module ResolverChain {

  /** The request after the stages have been applied in order, the first stage first. */
  function Fold<T>(stages: seq<T -> T>, request: T): T
  {
    if stages == [] then request else stages[|stages| - 1](Fold(stages[..|stages| - 1], request))
  }

  /** Running two lists of stages one after the other is running their concatenation. */
  lemma {:induction false} FoldConcat<T>(first: seq<T -> T>, second: seq<T -> T>, request: T)
    ensures Fold(first + second, request) == Fold(second, Fold(first, request))
    decreases |second|
  {
    if second == [] {
      assert first + second == first;
    } else {
      var front := second[..|second| - 1];
      assert (first + second)[..|first + second| - 1] == first + front;
      assert (first + second)[|first + second| - 1] == second[|second| - 1];
      FoldConcat(first, front, request);
    }
  }

  /** A chain of two stages feeds the first one's output to the second. */
  lemma TwoStages<T>(first: T -> T, second: T -> T, request: T)
    ensures Fold([first, second], request) == second(first(request))
  {
    assert [first, second][..1] == [first];
    assert [first][..0] == [];
    assert Fold([first], request) == first(request);
  }

  class Resolver<T> {
    /** The registered resolvers, in the order they were added. */
    var resolvers: seq<T -> T>

    /** The constructor registers the given resolvers one by one, in order. */
    constructor(given: seq<T -> T>)
      ensures resolvers == given
    {
      resolvers := [];
      new;
      var i := 0;
      while i < |given|
        invariant 0 <= i <= |given|
        invariant resolvers == given[..i]
      {
        AddResolver(given[i]);
        assert given[..i + 1] == given[..i] + [given[i]];
        i := i + 1;
      }
      assert given[..i] == given;
    }

    /** `addResolver`: append at the end, earlier entries unchanged. */
    method AddResolver(resolver: T -> T)
      modifies this
      ensures resolvers == old(resolvers) + [resolver]
    {
      resolvers := resolvers + [resolver];
    }

    /**
     * `resolve`: each resolver in turn receives the previous one's output. The
     * ghost `inputs` records what the i-th resolver was given: the fold of the
     * resolvers registered before it.
     */
    method Resolve(request: T) returns (r: T, ghost inputs: seq<T>)
      ensures r == Fold(resolvers, request)
      ensures |inputs| == |resolvers|
      ensures forall i :: 0 <= i < |inputs| ==> inputs[i] == Fold(resolvers[..i], request)
    {
      r := request;
      inputs := [];
      var i := 0;
      while i < |resolvers|
        invariant 0 <= i <= |resolvers|
        invariant r == Fold(resolvers[..i], request)
        invariant |inputs| == i && forall k :: 0 <= k < i ==> inputs[k] == Fold(resolvers[..k], request)
      {
        inputs := inputs + [r];
        var stage := resolvers[i];
        assert resolvers[..i + 1][..i] == resolvers[..i];
        r := stage(r);
        i := i + 1;
      }
      assert resolvers[..i] == resolvers;
    }
  }

  /** After `addResolver(f)` the chain's result is `f` applied to the old chain's result. */
  lemma AddedResolverRunsLast<T>(before: seq<T -> T>, f: T -> T, request: T)
    ensures Fold(before + [f], request) == f(Fold(before, request))
  {
    assert (before + [f])[..|before|] == before;
  }
}
