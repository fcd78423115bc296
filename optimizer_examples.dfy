/**
 * Worked examples of `optimize` on small requests over a `products` table,
 * and a request on which a second pass of `optimize` changes the result.
 */
module OptimizerExamples {
  import opened Wrappers
  import opened Types
  import opened Tokens
  import opened Optimizer

  const Products: Token := Table("products", "id", false)
  const IdSort: Token := SortById(TableScan("products", "id", false))
  const Slice: Token := Function("slice", [Argument([Parameter("offset")]), Argument([Parameter("limit")])])
  const SortByName: Token := Function("sort", [Argument([Value(ValueInfo("products", "name", String, false))])])
  const FilterByX: Token := Function("filter", [Argument([
    Function("equal", [Argument([Value(ValueInfo("products", "x", String, false))]), Argument([Parameter("p")])])])])

  /** An aggregate with a sort and no slice loses the sort. */
  lemma AggregateDropsLoneSort()
    ensures Optimize("sum", [Products, SortByName]) == [Products]
  {
    var r := [Products, SortByName];
    assert r[1..] == [SortByName] && [SortByName][1..] == [];
    assert FunctionNames([SortByName]) == ["sort"] + FunctionNames([]);
    assert FunctionNames(r) == ["sort"];
    var m := Analyze("sum", r);
    assert m.sorts && !m.slices && m.isAggregator;
    assert Kept("sort", [SortByName]) == [];
    assert Kept("sort", r) == [Products];
    assert Kept("rsort", [Products]) == [Products] + Kept("rsort", []);
    assert TakeSorts(r).request == [Products];
    NoSliceNoInsertion(Step(RemoveSortsRule(Step(m, r)).profile, [Products]));
  }

  /** A `get` over a bare table with a slice and no sort gains a sort on the id before the slice. */
  lemma GetSliceSortsById()
    ensures Optimize("get", [Products, Slice]) == [Products, IdSort, Slice]
  {
    var r := [Products, Slice];
    assert r[1..] == [Slice] && [Slice][1..] == [];
    assert FunctionNames([Slice]) == ["slice"] + FunctionNames([]);
    assert FunctionNames(r) == ["slice"];
    var m := Analyze("get", r);
    assert !m.sorts && !m.filters && m.slices;
    assert r[..1] == [Products] && [Products][..0] == [];
    assert InsertFunctionBefore(IdSort, "slice", [Products]) == [Products];
    assert InsertFunctionBefore(IdSort, "slice", r) == [Products, IdSort, Slice];
  }

  /** A `count` over a sliced table also forks after the slice. */
  lemma CountSliceForks()
    ensures Optimize("count", [Products, Slice]) == [Products, IdSort, Slice, Fork]
  {
    var r := [Products, Slice];
    assert r[1..] == [Slice] && [Slice][1..] == [];
    assert FunctionNames([Slice]) == ["slice"] + FunctionNames([]);
    assert FunctionNames(r) == ["slice"];
    var m := Analyze("count", r);
    assert !m.sorts && !m.filters && m.slices;
    assert r[..1] == [Products] && [Products][..0] == [];
    assert InsertFunctionBefore(IdSort, "slice", [Products]) == [Products];
    var r2 := [Products, IdSort, Slice];
    assert InsertFunctionBefore(IdSort, "slice", r) == r2;
    assert r2[..2] == [Products, IdSort] && r2[..2][..1] == [Products];
    assert InsertFunctionAfter(Fork, "slice", [Products]) == [Products];
    assert InsertFunctionAfter(Fork, "slice", [Products, IdSort]) == [Products, IdSort];
    assert InsertFunctionAfter(Fork, "slice", r2) == [Products, IdSort, Slice, Fork];
  }

  /** The profile of `[sort, filter]`: a plain get whose filter follows its sort, without a slice. */
  lemma SortThenFilterProfile()
    ensures var m := Analyze("get", [SortByName, FilterByX]);
      m.isGet && m.before.filtersSorts && m.sorts && m.filters && !m.slices
  {
    var r := [SortByName, FilterByX];
    assert r[1..] == [FilterByX] && [FilterByX][1..] == [];
    assert FunctionNames([FilterByX]) == ["filter"] + FunctionNames([]);
    assert FunctionNames(r) == ["sort", "filter"];
    assert ["sort", "filter"][1..] == ["filter"];
  }

  /** Taking the sorts out of `[sort, filter]` leaves the filter and hands back the sort. */
  lemma SortThenFilterTakeSorts()
    ensures TakeSorts([SortByName, FilterByX]) == Removal([FilterByX], Some(SortByName))
  {
    var r := [SortByName, FilterByX];
    assert r[1..] == [FilterByX] && [FilterByX][1..] == [];
    assert Kept("sort", [FilterByX]) == [FilterByX] + Kept("sort", []);
    assert Kept("sort", r) == [FilterByX];
    assert Kept("rsort", [FilterByX]) == [FilterByX] + Kept("rsort", []);
    assert Occurs(r, "sort") by { assert SortByName in r; }
    assert LastOf(r, "sort") == Some(SortByName);
  }

  /** A filter after a sort is moved in front of it. */
  lemma FilterMovesBeforeSort()
    ensures Optimize("get", [SortByName, FilterByX]) == [FilterByX, SortByName]
  {
    var r := [SortByName, FilterByX];
    SortThenFilterProfile();
    SortThenFilterTakeSorts();
    var m := Analyze("get", r);
    assert !SortIsRedundant(m) && ScanTable(r).None? && !NeedsFork(m) && FilterFollowsSort(m);
    assert [FilterByX][..0] == [];
    assert InsertFunctionAfter(SortByName, "filter", [FilterByX]) == [FilterByX, SortByName];
  }

  /** The profile of the request that the first pass over a sliced count produces. */
  lemma AnalyzeOptimizedCount()
    ensures var m := Analyze("count", [Products, IdSort, Slice, Fork]);
      m.isCount && m.sorts && m.slices && !m.filters && m.before.slicesSorts && !m.before.sortsSlices
  {
    var r := [Products, IdSort, Slice, Fork];
    assert r[1..] == [IdSort, Slice, Fork] && r[1..][1..] == [Slice, Fork] && [Slice, Fork][1..] == [Fork];
    assert [Fork][1..] == [];
    assert FunctionNames([Fork]) == ["fork"] + FunctionNames([]);
    assert FunctionNames([Slice, Fork]) == ["slice", "fork"];
    assert FunctionNames([IdSort, Slice, Fork]) == ["sort", "slice", "fork"];
    assert FunctionNames(r) == ["sort", "slice", "fork"];
    assert ["sort", "slice", "fork"][1..] == ["slice", "fork"];
  }

  /** Forking after every slice of the once-optimized request. */
  lemma ForkOptimizedCount()
    ensures InsertFunctionAfter(Fork, "slice", [Products, IdSort, Slice, Fork]) == [Products, IdSort, Slice, Fork, Fork]
  {
    var r := [Products, IdSort, Slice, Fork];
    assert r[..3] == [Products, IdSort, Slice] && r[..3][..2] == [Products, IdSort];
    assert r[..3][..2][..1] == [Products] && [Products][..0] == [];
    assert InsertFunctionAfter(Fork, "slice", [Products]) == [Products];
    assert InsertFunctionAfter(Fork, "slice", [Products, IdSort]) == [Products, IdSort];
    assert InsertFunctionAfter(Fork, "slice", [Products, IdSort, Slice]) == [Products, IdSort, Slice, Fork];
  }

  /** `optimize` is not idempotent: a second pass over a sliced count forks again. */
  lemma OptimizeTwiceForksTwice()
    ensures Optimize("count", Optimize("count", [Products, Slice])) == [Products, IdSort, Slice, Fork, Fork]
  {
    CountSliceForks();
    AnalyzeOptimizedCount();
    ForkOptimizedCount();
  }
}
