/**
 * The pure part of the query compiler: the classification of a request
 * (`analyze`), the rewrite rules of `optimize` and the helpers that remove and
 * insert function tokens, and the check on the request's top-level function.
 */
module Optimizer {
  import opened Wrappers
  import opened Types
  import opened Tokens

  // ---------------------------------------------------------------------------
  // getTopLevelFunction
  // ---------------------------------------------------------------------------

  /**
   * The name of the request's first function: the request is a list of
   * positional tokens whose first one must be a function; every other shape is
   * an unknown request type. (A positional function token always has at least
   * three positions, so the width check of the original is subsumed.)
   */
  function GetTopLevelFunction(request: seq<PToken>): (r: Result<string, CompilerError>)
    ensures r.Ok? <==> |request| > 0 && request[0].PFunction?
    ensures r.Ok? ==> r.value == request[0].name
    ensures r.Err? ==> r.error == UnknownRequestType
  {
    if |request| == 0 then Err(UnknownRequestType)
    else if KindOf(request[0]) != FunctionKind then Err(UnknownRequestType)
    else Ok(request[0].name)
  }

  // ---------------------------------------------------------------------------
  // Positions of function tokens in a request
  // ---------------------------------------------------------------------------

  /** Some top-level token is a function with this name. */
  predicate Occurs(r: Request, name: string)
  {
    exists t :: t in r && IsFunction(t, name)
  }

  lemma OccursCons(r: Request, name: string)
    requires |r| > 0
    ensures Occurs(r, name) <==> IsFunction(r[0], name) || Occurs(r[1..], name)
  {
    assert r == [r[0]] + r[1..];
  }

  lemma OccursSnoc(r: Request, name: string)
    requires |r| > 0
    ensures Occurs(r, name) <==> Occurs(r[..|r| - 1], name) || IsFunction(r[|r| - 1], name)
  {
    assert r == r[..|r| - 1] + [r[|r| - 1]];
  }

  /** The request position of the first function token with this name. */
  function FirstPosition(r: Request, name: string): (p: nat)
    requires Occurs(r, name)
    ensures p < |r| && IsFunction(r[p], name)
    ensures forall j :: 0 <= j < p ==> !IsFunction(r[j], name)
  {
    OccursCons(r, name);
    if IsFunction(r[0], name) then 0 else 1 + FirstPosition(r[1..], name)
  }

  /** Where `analyze` places the sort: the first `sort`, or the first `rsort` when there is no `sort`. */
  function SortPosition(r: Request): nat
    requires Occurs(r, "sort") || Occurs(r, "rsort")
  {
    if Occurs(r, "sort") then FirstPosition(r, "sort") else FirstPosition(r, "rsort")
  }

  /** The last function token with this name, searched for from the end. */
  function LastOf(r: Request, name: string): (o: Option<Token>)
    ensures o.Some? <==> Occurs(r, name)
    ensures o.Some? ==> o.value in r && IsFunction(o.value, name)
  {
    if r == [] then None
    else
      OccursCons(r, name);
      var later := LastOf(r[1..], name);
      if later.Some? then later
      else if IsFunction(r[0], name) then Some(r[0])
      else None
  }

  /** `LastOf` finds a token with no function token of that name after it. */
  lemma {:induction false} LastOfIsLast(r: Request, name: string)
    requires Occurs(r, name)
    ensures exists i :: (0 <= i < |r| && r[i] == LastOf(r, name).value &&
      forall j :: i < j < |r| ==> !IsFunction(r[j], name))
  {
    OccursCons(r, name);
    if Occurs(r[1..], name) {
      LastOfIsLast(r[1..], name);
      var i :| 0 <= i < |r[1..]| && r[1..][i] == LastOf(r[1..], name).value
        && forall j :: i < j < |r[1..]| ==> !IsFunction(r[1..][j], name);
      assert r[i + 1] == LastOf(r, name).value;
      assert forall j :: i + 1 < j < |r| ==> r[j] == r[1..][j - 1];
    } else {
      assert forall j :: 0 < j < |r| ==> r[j] in r[1..];
      assert r[0] == LastOf(r, name).value;
    }
  }

  // ---------------------------------------------------------------------------
  // analyze
  // ---------------------------------------------------------------------------

  /**
   * The order flags. `xY` is the source's `before[x][y]`, which holds when the
   * first x has a GREATER index than the first y: x occurs after y.
   */
  datatype Before = Before(
    filtersSorts: bool, filtersSlices: bool,
    sortsFilters: bool, sortsSlices: bool,
    slicesFilters: bool, slicesSorts: bool)

  /** The profile that `analyze` returns. */
  datatype Method = Method(
    isGet: bool, isDelete: bool, isSet: bool, isInsert: bool, isCount: bool, isAggregator: bool,
    filters: bool, sorts: bool, slices: bool,
    before: Before)

  /** The keys of `$method['is']`. */
  const MethodKeys: set<string> := {"get", "delete", "set", "insert", "count", "aggregator"}

  /** The names of the request's top-level function tokens, in order. */
  function FunctionNames(r: Request): seq<string>
  {
    if r == [] then []
    else (if r[0].Function? then [r[0].name] else []) + FunctionNames(r[1..])
  }

  /** `array_search($name, $names, true)`: the first index holding the name. */
  function Search(names: seq<string>, name: string): Option<nat>
  {
    if names == [] then None
    else if names[0] == name then Some(0)
    else match Search(names[1..], name)
      case None => None
      case Some(i) => Some(i + 1)
  }

  /** Exactly one of the six classification flags is set. */
  predicate ExactlyOneKind(m: Method)
  {
    var flags := [m.isGet, m.isDelete, m.isSet, m.isInsert, m.isCount, m.isAggregator];
    exists k :: 0 <= k < 6 && flags[k] && forall j :: 0 <= j < 6 && j != k ==> !flags[j]
  }

  function Analyze(topLevelFunction: string, r: Request): (m: Method)
    ensures ExactlyOneKind(m)
    ensures m.isGet <==> topLevelFunction == "get"
    ensures m.isDelete <==> topLevelFunction == "delete"
    ensures m.isSet <==> topLevelFunction == "set"
    ensures m.isInsert <==> topLevelFunction == "insert"
    ensures m.isCount <==> topLevelFunction == "count"
    ensures m.isAggregator <==> topLevelFunction !in {"get", "delete", "set", "insert", "count"}
    ensures m.filters <==> Occurs(r, "filter")
    ensures m.sorts <==> Occurs(r, "sort") || Occurs(r, "rsort")
    ensures m.slices <==> Occurs(r, "slice")
    ensures (m.before.filtersSorts || m.before.sortsFilters) ==> m.filters && m.sorts
    ensures (m.before.filtersSlices || m.before.slicesFilters) ==> m.filters && m.slices
    ensures (m.before.sortsSlices || m.before.slicesSorts) ==> m.sorts && m.slices
    ensures !(m.before.filtersSorts && m.before.sortsFilters)
    ensures !(m.before.filtersSlices && m.before.slicesFilters)
    ensures !(m.before.sortsSlices && m.before.slicesSorts)
  {
    var top := topLevelFunction;
    var known := top in MethodKeys;
    var names := FunctionNames(r);
    var filterIndex := Search(names, "filter");
    var sortIndex := if Search(names, "sort").Some? then Search(names, "sort") else Search(names, "rsort");
    var sliceIndex := Search(names, "slice");
    var filters, sorts, slices := filterIndex.Some?, sortIndex.Some?, sliceIndex.Some?;
    SearchFinds(r, "filter");
    SearchFinds(r, "sort");
    SearchFinds(r, "rsort");
    SearchFinds(r, "slice");
    var m := Method(
      known && top == "get", known && top == "delete", known && top == "set",
      known && top == "insert", known && top == "count", !known || top == "aggregator",
      filters, sorts, slices,
      Before(
        filters && sorts && filterIndex.value > sortIndex.value,
        filters && slices && filterIndex.value > sliceIndex.value,
        filters && sorts && sortIndex.value > filterIndex.value,
        sorts && slices && sortIndex.value > sliceIndex.value,
        filters && slices && sliceIndex.value > filterIndex.value,
        sorts && slices && sliceIndex.value > sortIndex.value));
    var flags := [m.isGet, m.isDelete, m.isSet, m.isInsert, m.isCount, m.isAggregator];
    var k := if top == "get" then 0 else if top == "delete" then 1 else if top == "set" then 2
             else if top == "insert" then 3 else if top == "count" then 4 else 5;
    assert flags[k] && forall j :: 0 <= j < 6 && j != k ==> !flags[j];
    m
  }

  /** The function names of a request with a token in front. */
  lemma FunctionNamesCons(r: Request)
    requires |r| > 0
    ensures r[0].Function? ==> FunctionNames(r) == [r[0].name] + FunctionNames(r[1..])
    ensures !r[0].Function? ==> FunctionNames(r) == FunctionNames(r[1..])
  {
  }

  /** Searching past a name that differs. */
  lemma SearchCons(x: string, rest: seq<string>, name: string)
    requires x != name
    ensures Search([x] + rest, name) == (match Search(rest, name) case None => None case Some(i) => Some(i + 1))
  {
    assert ([x] + rest)[1..] == rest;
  }

  /** `array_search` over the function names finds a name exactly when a function token carries it. */
  lemma {:induction false} SearchFinds(r: Request, name: string)
    ensures Search(FunctionNames(r), name).Some? <==> Occurs(r, name)
  {
    if r != [] {
      SearchFinds(r[1..], name);
      OccursCons(r, name);
      FunctionNamesCons(r);
      if r[0].Function? && r[0].name != name {
        SearchCons(r[0].name, FunctionNames(r[1..]), name);
      }
    }
  }

  /**
   * Comparing `array_search` indexes over the function names orders two names
   * the way their first positions in the request are ordered.
   */
  lemma {:induction false} SearchOrder(r: Request, a: string, b: string)
    requires a != b && Occurs(r, a) && Occurs(r, b)
    ensures var x, y := Search(FunctionNames(r), a), Search(FunctionNames(r), b);
      x.Some? && y.Some? && (x.value > y.value <==> FirstPosition(r, a) > FirstPosition(r, b))
  {
    SearchFinds(r, a);
    SearchFinds(r, b);
    OccursCons(r, a);
    OccursCons(r, b);
    FunctionNamesCons(r);
    var rest := FunctionNames(r[1..]);
    if IsFunction(r[0], a) {
      SearchCons(a, rest, b);
    } else if IsFunction(r[0], b) {
      SearchCons(b, rest, a);
    } else {
      SearchOrder(r[1..], a, b);
      if r[0].Function? {
        SearchCons(r[0].name, rest, a);
        SearchCons(r[0].name, rest, b);
      }
    }
  }

  /**
   * The meaning of the order flags in request positions: `before[x][y]` holds
   * exactly when both x and y occur and the first x comes after the first y
   * (with the sort position taken from `rsort` only when there is no `sort`).
   */
  lemma AnalyzeOrder(top: string, r: Request)
    ensures var m := Analyze(top, r);
      && (m.before.filtersSorts <==> m.filters && m.sorts && FirstPosition(r, "filter") > SortPosition(r))
      && (m.before.sortsFilters <==> m.filters && m.sorts && SortPosition(r) > FirstPosition(r, "filter"))
      && (m.before.filtersSlices <==> m.filters && m.slices && FirstPosition(r, "filter") > FirstPosition(r, "slice"))
      && (m.before.slicesFilters <==> m.filters && m.slices && FirstPosition(r, "slice") > FirstPosition(r, "filter"))
      && (m.before.sortsSlices <==> m.sorts && m.slices && SortPosition(r) > FirstPosition(r, "slice"))
      && (m.before.slicesSorts <==> m.sorts && m.slices && FirstPosition(r, "slice") > SortPosition(r))
  {
    var m := Analyze(top, r);
    var names := FunctionNames(r);
    SearchFinds(r, "sort");
    var sortName := if Occurs(r, "sort") then "sort" else "rsort";
    if m.filters && m.sorts {
      SearchOrder(r, "filter", sortName);
      SearchOrder(r, sortName, "filter");
    }
    if m.filters && m.slices {
      SearchOrder(r, "filter", "slice");
      SearchOrder(r, "slice", "filter");
    }
    if m.sorts && m.slices {
      SearchOrder(r, sortName, "slice");
      SearchOrder(r, "slice", sortName);
    }
  }


  // ---------------------------------------------------------------------------
  // removeFunction, insertFunctionBefore/After/RelativeTo
  // ---------------------------------------------------------------------------

  /** What `removeFunction` returns, with the token left in its by-reference argument. */
  datatype Removal = Removal(request: Request, removed: Option<Token>)

  /** The tokens that `removeFunction`'s filter keeps: all but the function tokens with this name. */
  function Kept(name: string, r: Request): Request
  {
    if r == [] then [] else (if IsFunction(r[0], name) then [] else [r[0]]) + Kept(name, r[1..])
  }

  /** The last token that the filter drops, or the incoming value when it drops none. */
  function LastRemoved(name: string, r: Request, removed: Option<Token>): Option<Token>
  {
    if r == [] then removed
    else LastRemoved(name, r[1..], if IsFunction(r[0], name) then Some(r[0]) else removed)
  }

  /**
   * `removeFunction($name, $request, &$removed)`: drops every top-level function
   * token with this name; the filter visits tokens left to right, so `removed`
   * ends as the last dropped token, or keeps its value when nothing is dropped.
   */
  function RemoveFunction(name: string, r: Request, removed: Option<Token>): (res: Removal)
    ensures !Occurs(r, name) ==> res == Removal(r, removed)
    ensures res.removed == if Occurs(r, name) then LastOf(r, name) else removed
  {
    KeptWithout(name, r);
    LastRemovedIsLast(name, r, removed);
    Removal(Kept(name, r), LastRemoved(name, r, removed))
  }

  /** What the filter keeps; with nothing to drop it keeps the whole request. */
  lemma {:induction false} KeptWithout(name: string, r: Request)
    ensures forall t :: t in Kept(name, r) <==> t in r && !IsFunction(t, name)
    ensures !Occurs(r, name) ==> Kept(name, r) == r
  {
    if r != [] {
      KeptWithout(name, r[1..]);
      OccursCons(r, name);
      assert r == [r[0]] + r[1..];
    }
  }

  /** The by-reference value ends as the last function token of that name. */
  lemma {:induction false} LastRemovedIsLast(name: string, r: Request, removed: Option<Token>)
    ensures LastRemoved(name, r, removed) == if Occurs(r, name) then LastOf(r, name) else removed
  {
    if r != [] {
      OccursCons(r, name);
      LastRemovedIsLast(name, r[1..], if IsFunction(r[0], name) then Some(r[0]) else removed);
    }
  }

  /** Removing works token by token: the kept tokens distribute over concatenation. */
  lemma {:induction false} KeptConcat(name: string, a: Request, b: Request)
    ensures Kept(name, a + b) == Kept(name, a) + Kept(name, b)
  {
    if a == [] {
      assert a + b == b;
    } else {
      assert (a + b)[0] == a[0] && (a + b)[1..] == a[1..] + b;
      KeptConcat(name, a[1..], b);
    }
  }

  /** The last token of another name is the same before and after a removal. */
  lemma {:induction false} LastOfAfterRemove(x: string, y: string, r: Request)
    requires x != y
    ensures LastOf(Kept(x, r), y) == LastOf(r, y)
  {
    if r != [] {
      LastOfAfterRemove(x, y, r[1..]);
      if IsFunction(r[0], x) {
        assert Kept(x, r) == Kept(x, r[1..]);
      } else {
        assert Kept(x, r) == [r[0]] + Kept(x, r[1..]);
        LastOfCons(r[0], Kept(x, r[1..]), y);
      }
    }
  }

  /** `LastOf` on a request with a token in front. */
  lemma LastOfCons(h: Token, s: Request, name: string)
    ensures LastOf([h] + s, name)
         == if LastOf(s, name).Some? then LastOf(s, name) else if IsFunction(h, name) then Some(h) else None
  {
    assert ([h] + s)[1..] == s;
  }

  /** The tokens that one request token turns into. */
  function Pieces(insertBefore: bool, f: Token, target: string, t: Token): seq<Token>
  {
    if IsFunction(t, target) then (if insertBefore then [f, t] else [t, f]) else [t]
  }

  /** The number of top-level function tokens with this name. */
  function CountFunction(r: Request, name: string): nat
  {
    if r == [] then 0 else CountFunction(r[..|r| - 1], name) + (if IsFunction(r[|r| - 1], name) then 1 else 0)
  }

  /**
   * `insertFunctionRelativeTo`: a left fold over the request that puts `f`
   * next to every function token named `target`, before it or after it.
   */
  function InsertFunctionRelativeTo(insertBefore: bool, f: Token, target: string, r: Request): (res: Request)
    ensures |res| == |r| + CountFunction(r, target)
  {
    if r == [] then []
    else
      var n := |r| - 1;
      InsertFunctionRelativeTo(insertBefore, f, target, r[..n]) + Pieces(insertBefore, f, target, r[n])
  }

  /** The tokens after an insertion: the request's, and `f` when some target exists. */
  lemma {:induction false} InsertMembers(insertBefore: bool, f: Token, target: string, r: Request)
    ensures forall t :: t in InsertFunctionRelativeTo(insertBefore, f, target, r) <==> t in r || (t == f && Occurs(r, target))
  {
    if r != [] {
      var n := |r| - 1;
      InsertMembers(insertBefore, f, target, r[..n]);
      OccursSnoc(r, target);
      assert r == r[..n] + [r[n]];
    }
  }

  /** `insertFunctionBefore`: the request's tokens plus `f`, once per target, and `f` only when a target occurs. */
  function InsertFunctionBefore(f: Token, target: string, r: Request): (res: Request)
    ensures |res| == |r| + CountFunction(r, target)
    ensures forall t :: t in res <==> t in r || (t == f && Occurs(r, target))
  {
    InsertMembers(true, f, target, r);
    InsertFunctionRelativeTo(true, f, target, r)
  }

  /** `insertFunctionAfter`: the request's tokens plus `f`, once per target, and `f` only when a target occurs. */
  function InsertFunctionAfter(f: Token, target: string, r: Request): (res: Request)
    ensures |res| == |r| + CountFunction(r, target)
    ensures forall t :: t in res <==> t in r || (t == f && Occurs(r, target))
  {
    InsertMembers(false, f, target, r);
    InsertFunctionRelativeTo(false, f, target, r)
  }

  /** With no function token named `target`, inserting changes nothing. */
  lemma {:induction false} InsertWithoutTarget(insertBefore: bool, f: Token, target: string, r: Request)
    requires !Occurs(r, target)
    ensures InsertFunctionRelativeTo(insertBefore, f, target, r) == r
  {
    if r != [] {
      var n := |r| - 1;
      OccursSnoc(r, target);
      InsertWithoutTarget(insertBefore, f, target, r[..n]);
      assert r == r[..n] + [r[n]];
    }
  }

  /** Inserting works token by token: it distributes over concatenation. */
  lemma {:induction false} InsertConcat(insertBefore: bool, f: Token, target: string, a: Request, b: Request)
    ensures InsertFunctionRelativeTo(insertBefore, f, target, a + b)
         == InsertFunctionRelativeTo(insertBefore, f, target, a) + InsertFunctionRelativeTo(insertBefore, f, target, b)
  {
    if b == [] {
      assert a + b == a;
    } else {
      var n := |b| - 1;
      InsertConcat(insertBefore, f, target, a, b[..n]);
      assert (a + b)[..|a + b| - 1] == a + b[..n];
      assert (a + b)[|a + b| - 1] == b[n];
      ConcatAssoc(InsertFunctionRelativeTo(insertBefore, f, target, a), InsertFunctionRelativeTo(insertBefore, f, target, b[..n]),
                  Pieces(insertBefore, f, target, b[n]));
    }
  }

  /** Concatenation is associative. */
  lemma ConcatAssoc<X>(a: seq<X>, b: seq<X>, c: seq<X>)
    ensures (a + b) + c == a + (b + c)
  {
  }

  /** `f` lands immediately before (or after) each function token named `target`. */
  lemma InsertAt(insertBefore: bool, f: Token, target: string, a: Request, x: Token, b: Request)
    requires IsFunction(x, target)
    ensures InsertFunctionRelativeTo(insertBefore, f, target, a + [x] + b)
         == InsertFunctionRelativeTo(insertBefore, f, target, a)
            + (if insertBefore then [f, x] else [x, f])
            + InsertFunctionRelativeTo(insertBefore, f, target, b)
  {
    InsertConcat(insertBefore, f, target, a + [x], b);
    InsertConcat(insertBefore, f, target, a, [x]);
    assert [x][..0] == [];
  }

  /** Removing the inserted function's name undoes an insertion: its partner operation. */
  lemma {:induction false} RemoveAfterInsert(insertBefore: bool, f: Token, target: string, r: Request, removed: Option<Token>)
    requires f.Function?
    ensures RemoveFunction(f.name, InsertFunctionRelativeTo(insertBefore, f, target, r), removed).request
         == RemoveFunction(f.name, r, removed).request
  {
    KeptAfterInsert(insertBefore, f, target, r);
  }

  lemma {:induction false} KeptAfterInsert(insertBefore: bool, f: Token, target: string, r: Request)
    requires f.Function?
    ensures Kept(f.name, InsertFunctionRelativeTo(insertBefore, f, target, r)) == Kept(f.name, r)
  {
    if r != [] {
      var n := |r| - 1;
      var front := InsertFunctionRelativeTo(insertBefore, f, target, r[..n]);
      var x := r[n];
      KeptAfterInsert(insertBefore, f, target, r[..n]);
      KeptConcat(f.name, front, Pieces(insertBefore, f, target, x));
      KeptConcat(f.name, r[..n], [x]);
      assert r == r[..n] + [x];
      if IsFunction(x, target) {
        if insertBefore {
          KeptConcat(f.name, [f], [x]);
          assert Pieces(insertBefore, f, target, x) == [f] + [x];
        } else {
          KeptConcat(f.name, [x], [f]);
          assert Pieces(insertBefore, f, target, x) == [x] + [f];
        }
      }
    }
  }

  /** When `f` is new to the request, each inserted copy sits right next to a target. */
  lemma {:induction false} InsertedNextToTarget(insertBefore: bool, f: Token, target: string, r: Request, i: nat)
    requires f !in r
    requires i < |InsertFunctionRelativeTo(insertBefore, f, target, r)|
    requires InsertFunctionRelativeTo(insertBefore, f, target, r)[i] == f
    ensures var res := InsertFunctionRelativeTo(insertBefore, f, target, r);
      if insertBefore then i + 1 < |res| && IsFunction(res[i + 1], target)
      else i > 0 && IsFunction(res[i - 1], target)
  {
    var n := |r| - 1;
    var front := InsertFunctionRelativeTo(insertBefore, f, target, r[..n]);
    var pieces := Pieces(insertBefore, f, target, r[n]);
    assert r == r[..n] + [r[n]];
    if i < |front| {
      InsertedNextToTarget(insertBefore, f, target, r[..n], i);
    } else {
      assert (front + pieces)[i] == pieces[i - |front|];
    }
  }

  // ---------------------------------------------------------------------------
  // optimize
  // ---------------------------------------------------------------------------

  /** The request and the profile as the rules see them, one rule after the other. */
  datatype Step = Step(profile: Method, request: Request)

  /** What `scanTable` returns for a request whose first token is a table. */
  datatype TableScan = TableScan(table: string, id: string, hasZero: bool)

  /** `scanTable`: the first token, when it is a table. */
  function ScanTable(r: Request): (s: Option<TableScan>)
    ensures s.Some? <==> |r| > 0 && r[0].Table?
    ensures s.Some? ==> r[0] == Table(s.value.table, s.value.id, s.value.hasZero)
  {
    if |r| > 0 && r[0].Table? then Some(TableScan(r[0].table, r[0].id, r[0].hasZero)) else None
  }

  /** The synthetic sort on the table's id column that rule 2 inserts (its type is taken to be integer). */
  function SortById(s: TableScan): Token
  {
    Function("sort", [Argument([Value(ValueInfo(s.table, s.id, Integer, s.hasZero))])])
  }

  /** The zero-argument fork that rule 3 inserts. */
  const Fork: Token := Function("fork", [])

  /** Either a `sort` or an `rsort` function token. */
  predicate IsSort(t: Token)
  {
    IsFunction(t, "sort") || IsFunction(t, "rsort")
  }

  predicate HasSort(r: Request)
  {
    exists t :: t in r && IsSort(t)
  }

  /** The request classes for which rule 1 drops the ordering. */
  predicate IsScalarOrWrite(m: Method)
  {
    m.isCount || m.isAggregator || m.isSet || m.isDelete
  }

  /** Rule 1's condition: the sort comes after the slice, or there is a sort and no slice. */
  predicate SortIsRedundant(m: Method)
  {
    IsScalarOrWrite(m) && (m.before.sortsSlices || (m.sorts && !m.slices))
  }

  /** The request without its sort and rsort tokens, and the token that rule 4 moves. */
  function TakeSorts(r: Request): (b: Removal)
    ensures !HasSort(b.request)
    ensures forall t :: t in b.request <==> t in r && !IsSort(t)
    ensures b.removed == if Occurs(r, "rsort") then LastOf(r, "rsort") else LastOf(r, "sort")
    ensures HasSort(r) ==> b.removed.Some? && IsSort(b.removed.value) && b.removed.value in r
  {
    var a := RemoveFunction("sort", r, None);
    var b := RemoveFunction("rsort", a.request, a.removed);
    LastOfAfterRemove("sort", "rsort", r);
    KeptWithout("sort", r);
    KeptWithout("rsort", a.request);
    assert Occurs(a.request, "rsort") <==> Occurs(r, "rsort");
    b
  }

  /** Rule 1: remove unnecessary sorts, and clear the sort flags. */
  function RemoveSortsRule(s: Step): (o: Step)
    ensures !SortIsRedundant(s.profile) ==> o == s
    ensures SortIsRedundant(s.profile) ==> !HasSort(o.request) && !o.profile.sorts && !o.profile.before.filtersSorts
    ensures SortIsRedundant(s.profile) ==> o.request == TakeSorts(s.request).request
    ensures SortIsRedundant(s.profile) ==> o.profile == s.profile.(sorts := false,
      before := s.profile.before.(sortsFilters := false, sortsSlices := false, filtersSorts := false, slicesSorts := false))
    ensures forall t :: t in o.request <==> t in s.request && (SortIsRedundant(s.profile) ==> !IsSort(t))
  {
    var m := s.profile;
    if SortIsRedundant(m) then
      Step(
        m.(sorts := false,
           before := m.before.(sortsFilters := false, sortsSlices := false, filtersSorts := false, slicesSorts := false)),
        TakeSorts(s.request).request)
    else s
  }

  /** Rule 2's condition: a bare table scan, and the sort is not already known to precede the slice. */
  predicate NeedsSortBeforeSlice(s: Step)
  {
    ScanTable(s.request).Some? && (!s.profile.before.slicesSorts || (s.profile.slices && !s.profile.sorts))
  }

  /** Rule 2: slices imply a sort; the profile is not updated. */
  function SliceImpliesSortRule(s: Step): (o: Step)
    ensures o.profile == s.profile
    ensures !NeedsSortBeforeSlice(s) ==> o == s
    ensures NeedsSortBeforeSlice(s) ==> o.request == InsertFunctionBefore(SortById(ScanTable(s.request).value), "slice", s.request)
    ensures forall t :: t in s.request ==> t in o.request
    ensures forall t :: t in o.request ==> t in s.request || (NeedsSortBeforeSlice(s) && t == SortById(ScanTable(s.request).value))
  {
    InsertMembers(true, SortById(if ScanTable(s.request).Some? then ScanTable(s.request).value else TableScan("", "", false)), "slice", s.request);
    if NeedsSortBeforeSlice(s) then
      Step(s.profile, InsertFunctionBefore(SortById(ScanTable(s.request).value), "slice", s.request))
    else s
  }

  /** Rule 3's condition. */
  predicate NeedsFork(m: Method)
  {
    (m.isCount || m.isAggregator) && m.slices
  }

  /** Rule 3: slices in counts and aggregators require subqueries; the profile is not updated. */
  function ForkSliceRule(s: Step): (o: Step)
    ensures o.profile == s.profile
    ensures !NeedsFork(s.profile) ==> o == s
    ensures NeedsFork(s.profile) ==> o.request == InsertFunctionAfter(Fork, "slice", s.request)
    ensures forall t :: t in s.request ==> t in o.request
    ensures forall t :: t in o.request ==> t in s.request || (NeedsFork(s.profile) && t == Fork)
  {
    InsertMembers(false, Fork, "slice", s.request);
    if NeedsFork(s.profile) then Step(s.profile, InsertFunctionAfter(Fork, "slice", s.request))
    else s
  }

  /** Rule 4's condition: the filter comes after the sort and no slice lies between them. */
  predicate FilterFollowsSort(m: Method)
  {
    m.before.filtersSorts && (!m.slices || m.before.filtersSlices == m.before.sortsSlices)
  }

  /** Rule 4: move the last removed sort (an rsort when there is one) right after each filter. */
  function FilterBeforeSortRule(s: Step): (o: Step)
    requires s.profile.before.filtersSorts ==> HasSort(s.request)
    ensures !FilterFollowsSort(s.profile) ==> o == s
    ensures FilterFollowsSort(s.profile) ==>
      && TakeSorts(s.request).removed.Some?
      && o.request == InsertFunctionAfter(TakeSorts(s.request).removed.value, "filter", TakeSorts(s.request).request)
      && !o.profile.before.filtersSorts && o.profile.before.sortsFilters
    ensures FilterFollowsSort(s.profile) ==>
      o.profile == s.profile.(before := s.profile.before.(filtersSorts := false, sortsFilters := true))
    ensures forall t :: t in o.request ==> t in s.request
    ensures forall t :: t in s.request && !IsSort(t) ==> t in o.request
  {
    var m := s.profile;
    if FilterFollowsSort(m) then
      var b := TakeSorts(s.request);
      InsertMembers(false, b.removed.value, "filter", b.request);
      Step(m.(before := m.before.(filtersSorts := false, sortsFilters := true)),
           InsertFunctionAfter(b.removed.value, "filter", b.request))
    else s
  }

  /** The steps of `optimize`: the profile is computed once; rules 1 and 4 patch it, rules 2 and 3 do not. */
  function OptimizeSteps(topLevelFunction: string, r: Request): (s: Step)
    ensures var m := Analyze(topLevelFunction, r);
      && s.profile.isGet == m.isGet && s.profile.isDelete == m.isDelete && s.profile.isSet == m.isSet
      && s.profile.isInsert == m.isInsert && s.profile.isCount == m.isCount && s.profile.isAggregator == m.isAggregator
      && s.profile.filters == m.filters && s.profile.slices == m.slices
      && (s.profile.sorts ==> m.sorts)
  {
    var s0 := Step(Analyze(topLevelFunction, r), r);
    var s1 := RemoveSortsRule(s0);
    var s3 := ForkSliceRule(SliceImpliesSortRule(s1));
    assert s3.profile.before.filtersSorts ==> HasSort(s3.request) by {
      if s3.profile.before.filtersSorts {
        assert s1 == s0;
        assert HasSort(r) by {
          if Occurs(r, "sort") {
            var t :| t in r && IsFunction(t, "sort");
          } else {
            var t :| t in r && IsFunction(t, "rsort");
          }
        }
        var t :| t in r && IsSort(t);
        assert t in s3.request;
      }
    }
    FilterBeforeSortRule(s3)
  }

  /**
   * `optimize`: the rewritten request. It keeps every token that is not a
   * sort; what it adds is a fork or a sort.
   */
  function Optimize(topLevelFunction: string, r: Request): (o: Request)
    ensures forall t :: t in r && !IsSort(t) ==> t in o
    ensures forall t :: t in o ==> t in r || t == Fork || IsSort(t)
  {
    OptimizeSteps(topLevelFunction, r).request
  }

  // ---------------------------------------------------------------------------
  // What the rules do
  // ---------------------------------------------------------------------------

  /**
   * Rule 1 inside `optimize`: once the ordering is redundant, the only sort left
   * in the result is rule 2's sort on the table's id; with no slice there is none.
   */
  lemma RedundantSortsAreDropped(top: string, r: Request)
    requires SortIsRedundant(Analyze(top, r))
    ensures forall t :: t in Optimize(top, r) && IsSort(t) ==>
      ScanTable(TakeSorts(r).request).Some? && t == SortById(ScanTable(TakeSorts(r).request).value)
    ensures !Occurs(r, "slice") ==> !HasSort(Optimize(top, r))
  {
    var s0 := Step(Analyze(top, r), r);
    var s1 := RemoveSortsRule(s0);
    var s2 := SliceImpliesSortRule(s1);
    var s3 := ForkSliceRule(s2);
    assert OptimizeSteps(top, r) == s3;
    var k := TakeSorts(r).request;
    var scan := if ScanTable(k).Some? then ScanTable(k).value else TableScan("", "", false);
    InsertMembers(true, SortById(scan), "slice", k);
    InsertMembers(false, Fork, "slice", s2.request);
    if !Occurs(r, "slice") {
      assert !Occurs(k, "slice");
      InsertWithoutTarget(true, SortById(scan), "slice", k);
      assert s2 == s1;
      assert s3 == s2;
    }
  }

  /** Rules 2 and 3 change nothing in a request without a slice. */
  lemma {:induction false} NoSliceNoInsertion(s: Step)
    requires !Occurs(s.request, "slice")
    ensures SliceImpliesSortRule(s) == s
    ensures ForkSliceRule(s) == s
  {
    if ScanTable(s.request).Some? {
      InsertWithoutTarget(true, SortById(ScanTable(s.request).value), "slice", s.request);
    }
    InsertWithoutTarget(false, Fork, "slice", s.request);
  }

  /** Rule 2 puts each new sort on the id immediately before a slice. */
  lemma IdSortPrecedesSlice(s: Step, i: nat)
    requires NeedsSortBeforeSlice(s) && SortById(ScanTable(s.request).value) !in s.request
    requires i < |SliceImpliesSortRule(s).request|
    requires SliceImpliesSortRule(s).request[i] == SortById(ScanTable(s.request).value)
    ensures i + 1 < |SliceImpliesSortRule(s).request|
    ensures IsFunction(SliceImpliesSortRule(s).request[i + 1], "slice")
  {
    InsertedNextToTarget(true, SortById(ScanTable(s.request).value), "slice", s.request, i);
  }

  /** Rule 3 puts each new fork immediately after a slice. */
  lemma ForkFollowsSlice(s: Step, i: nat)
    requires NeedsFork(s.profile) && Fork !in s.request
    requires i < |ForkSliceRule(s).request| && ForkSliceRule(s).request[i] == Fork
    ensures i > 0 && IsFunction(ForkSliceRule(s).request[i - 1], "slice")
  {
    InsertedNextToTarget(false, Fork, "slice", s.request, i);
  }

  /**
   * Rule 4: every sort in the result is the moved one (the last `rsort` when
   * there is one, else the last `sort`), right after a filter.
   */
  lemma MovedSortFollowsFilter(s: Step, i: nat)
    requires s.profile.before.filtersSorts ==> HasSort(s.request)
    requires FilterFollowsSort(s.profile)
    requires i < |FilterBeforeSortRule(s).request| && IsSort(FilterBeforeSortRule(s).request[i])
    ensures FilterBeforeSortRule(s).request[i]
         == if Occurs(s.request, "rsort") then LastOf(s.request, "rsort").value else LastOf(s.request, "sort").value
    ensures i > 0 && IsFunction(FilterBeforeSortRule(s).request[i - 1], "filter")
  {
    var b := TakeSorts(s.request);
    var res := FilterBeforeSortRule(s).request;
    InsertMembers(false, b.removed.value, "filter", b.request);
    assert res[i] in res;
    assert res[i] == b.removed.value;
    InsertedNextToTarget(false, b.removed.value, "filter", b.request, i);
  }
}
