# Cinnabari query compiler core, modelled in Dafny

Cinnabari compiles a request for data (a small functional language of
`get`, `filter`, `sort`, `slice`, arithmetic and string functions over schema
properties) into MySQL. This project models its kernel in two parts.

**The query compiler kernel** (`AbstractCompiler`):

- The request profile (`analyze`): what kind of request it is (get, delete,
  set, insert, count or aggregator), and whether and in which order its first
  `filter`, `sort` (or `rsort`) and `slice` occur.
- The four rewrite rules of `optimize`, with their token removal and insertion
  helpers.
- Overload resolution of a function name against argument types.
- The expression compiler, a stateful class.
  - It dispatches on the kind of the first token (join, parameter, value,
    function) and on a function's arity.
  - It follows chains of joins.
  - It keeps a LIFO stack of save points (`context`, `contextJoin`, `input`,
    `mysql`), pushed before a join and popped or rolled back after the
    expression that follows it.
  - Each compile method is specified by a ghost function (`Compile`, and one
    per arity) from the entry state to the result and to the state left
    behind. The entry state is the binder's log, the contexts, the contextual
    join and the joins of both statements.

**The type and signature machinery**:

- The function table `Functions`: exact-match signature lookup, the output type
  of a function token, and the built-in overload table.
- The three tree-walking resolvers `Type`, `PropertyType` and `ParameterType`.
  They fill in or check type slots of tokens in the parser's positional
  format `[kind, name, arguments, type?]`.
- The resolver chain `Resolver`, which applies the resolvers one after another.

Files, one module each:

- wrappers.dfy: `Option` and `Result`.
- types.dfy: type constants, PHP values, signatures and positional tokens.
- tokens.dfy: the translator's single-key token format.
- optimizer.dfy: `analyze`, `optimize` and the helpers.
- optimizer_examples.dfy: concrete rewrites.
- overloads.dfy: overload resolution.
- compiler.dfy: the expression compiler class.
- function_table.dfy: `Functions`.
- type_resolver.dfy: `Type`.
- property_type.dfy: `PropertyType`.
- parameter_type.dfy: `ParameterType`.
- resolvers.dfy: `Resolver`.

Some behaviour of the code, stated in the model as it is:

- The order flag `before[x][y]` holds when x's first index is *greater* than
  y's, that is, when x occurs after y.
- `optimize` computes the profile once. Rules 2 and 3 rewrite the request
  without updating the profile.
- After rule 1 has dropped every sort, rule 2 can still insert a sort by the
  table's id in front of each slice, because rule 1 clears `slicesSorts`. So
  "no sort remains" holds only when there is no slice, or for the inserted
  id sort (`RedundantSortsAreDropped`).
- `optimize` is not idempotent. A count over `[table, slice]` gains a second
  `fork` on a second pass (`OptimizerExamples.OptimizeTwiceForksTwice`).
- `getTopLevelFunction` reads the request in the parser's positional format.
  Every other operation of the compiler reads the translator format.
- `getOptionalFilterFunction` does not check that the filter expression is
  boolean.
- A rollback restores handles. The join edges and binder uses added after
  its save point stay, and so does a moved subquery context
  (`JoinsStayLogged`, `CompileJoin`).
- In `Type`, the context is built by putting the leftmost property in front
  of the outer context. Every argument of a function, that leftmost property
  included, is resolved in that one context.
- In `PropertyType`, the children of functions and objects are resolved in an
  empty context. The context given to `applyDeep` therefore matters only for
  a bare property at the root.

## Model

| member | source | states |
|---|---|---|
| Optimizer.GetTopLevelFunction | src/Compiler/AbstractCompiler.php:137-156 | succeeds exactly when the request is non-empty and its first token is a function, and then yields that function's name; every other request is the unknown-request-type error |
| Optimizer.Analyze | src/Compiler/AbstractCompiler.php:365-420 | exactly one kind flag is set; get, delete, set, insert and count hold exactly for the top-level function of that name, and aggregator exactly for names other than get/delete/set/insert/count; the filter/sort/slice flags hold exactly when such a function occurs (sort counting rsort); every order flag implies both functions occur and no pair is ordered both ways |
| Optimizer.AnalyzeOrder | src/Compiler/AbstractCompiler.php:392-417 | each `before[x][y]` flag holds iff both occur and x's first position is greater than y's; the sort position is the first `sort`, or the first `rsort` when there is no `sort` |
| Optimizer.SearchFinds | src/Compiler/AbstractCompiler.php:381-400 | `array_search` over the collected function names finds a name iff a function token of that name occurs in the request |
| Optimizer.SearchOrder | src/Compiler/AbstractCompiler.php:381-400 | for two distinct occurring names, comparing their search indices is comparing their first positions in the request |
| Optimizer.LastOfIsLast | src/Compiler/AbstractCompiler.php:316-333 | the token reported as removed sits at a position after which no token of that name occurs |
| Optimizer.RemoveFunction | src/Compiler/AbstractCompiler.php:316-333 | with no matching token the request and the by-reference removed token are unchanged; otherwise the removed token becomes the last matching one |
| Optimizer.KeptWithout | src/Compiler/AbstractCompiler.php:316-333 | the kept tokens are exactly the request's tokens other than functions of that name; without such a function the request is returned identical |
| Optimizer.LastRemovedIsLast | src/Compiler/AbstractCompiler.php:320-330 | the by-reference token ends as the last function of that name when one occurs, and keeps its incoming value otherwise |
| Optimizer.KeptConcat | src/Compiler/AbstractCompiler.php:316-333 | removal distributes over concatenation, so the other tokens keep their order |
| Optimizer.LastOfAfterRemove | src/Compiler/AbstractCompiler.php:306-307 | removing all `sort` tokens does not change which `rsort` is the last one, so the second removal reports an rsort when one exists |
| Optimizer.InsertFunctionRelativeTo | src/Compiler/AbstractCompiler.php:345-363 | the result is longer than the request by exactly the number of target functions |
| Optimizer.InsertFunctionBefore | src/Compiler/AbstractCompiler.php:335-338 | one token more per target function; the tokens are the request's, plus the inserted one exactly when a target occurs |
| Optimizer.InsertFunctionAfter | src/Compiler/AbstractCompiler.php:340-343 | one token more per target function; the tokens are the request's, plus the inserted one exactly when a target occurs |
| Optimizer.InsertMembers | src/Compiler/AbstractCompiler.php:345-363 | the result holds the request's tokens, plus the inserted token exactly when a target occurs |
| Optimizer.InsertWithoutTarget | src/Compiler/AbstractCompiler.php:345-363 | with no target function the request is returned unchanged |
| Optimizer.InsertConcat | src/Compiler/AbstractCompiler.php:345-363 | insertion distributes over concatenation (the fold handles each token on its own) |
| Optimizer.KeptAfterInsert | src/Compiler/AbstractCompiler.php:316-363 | the tokens other than the inserted function's name are the same before and after an insertion |
| Optimizer.InsertAt | src/Compiler/AbstractCompiler.php:335-363 | at each target the token is placed immediately before it (`insertFunctionBefore`) or immediately after it (`insertFunctionAfter`) |
| Optimizer.InsertedNextToTarget | src/Compiler/AbstractCompiler.php:335-363 | every occurrence of a freshly inserted token is directly before (or after) a target function |
| Optimizer.RemoveAfterInsert | src/Compiler/AbstractCompiler.php:316-363 | removing the inserted function's name after an insertion gives the same request as removing it from the original: removal undoes insertion |
| Optimizer.TakeSorts | src/Compiler/AbstractCompiler.php:246-247 | removing `sort` then `rsort` leaves no sort of either kind and every other token; the removed token is the last `rsort` if any, else the last `sort` |
| Optimizer.ScanTable | src/Compiler/AbstractCompiler.php:761-777 | succeeds exactly when the first token is a table token and returns its table, id and hasZero |
| Optimizer.RemoveSortsRule | src/Compiler/AbstractCompiler.php:234-254 | for count/aggregator/set/delete with a sort after the slice, or a sort and no slice, no sort or rsort remains, the request is the one without sorts, and the new profile is the old one with `sorts` and the four sort order flags cleared and everything else kept; otherwise nothing changes |
| Optimizer.SliceImpliesSortRule | src/Compiler/AbstractCompiler.php:256-281 | besides the id sort it may add, the tokens are unchanged; when the first token is a table and not (slice after sort), or there are slices and no sorts, a sort by the table's id is inserted before every slice; the profile is not updated |
| Optimizer.ForkSliceRule | src/Compiler/AbstractCompiler.php:283-295 | for count or aggregator requests with a slice, a zero-argument `fork` is inserted after every slice, and nothing else is added; the profile is not updated |
| Optimizer.FilterBeforeSortRule | src/Compiler/AbstractCompiler.php:297-311 | when a filter follows a sort, and there is no slice or both lie on the same side of it, all sorts are removed and the last removed one is reinserted after every filter; the profile then records the sort before the filter |
| Optimizer.OptimizeSteps | src/Compiler/AbstractCompiler.php:230-314 | the profile after the four rules keeps analyze's kind, filter and slice flags, and can only lose the sort flag |
| Optimizer.Optimize | src/Compiler/AbstractCompiler.php:230-314 | every token that is not a sort survives optimization, and every token it adds is a fork or a sort |
| Optimizer.RedundantSortsAreDropped | src/Compiler/AbstractCompiler.php:234-281 | after optimization a redundant-sort request keeps no sort except the id sort rule 2 inserts, and none at all without a slice |
| Optimizer.NoSliceNoInsertion | src/Compiler/AbstractCompiler.php:256-295 | without a slice, rules 2 and 3 leave the step unchanged |
| Optimizer.IdSortPrecedesSlice | src/Compiler/AbstractCompiler.php:256-281 | every inserted id sort is immediately followed by a slice |
| Optimizer.ForkFollowsSlice | src/Compiler/AbstractCompiler.php:283-295 | every inserted fork is immediately preceded by a slice |
| Optimizer.MovedSortFollowsFilter | src/Compiler/AbstractCompiler.php:297-311 | each sort in rule 4's result is the last removed one (an rsort when present) and directly follows a filter |
| OptimizerExamples.AggregateDropsLoneSort | src/Compiler/AbstractCompiler.php:234-254 | `sum` over a table with one sort loses the sort |
| OptimizerExamples.GetSliceSortsById | src/Compiler/AbstractCompiler.php:256-281 | `get` over `[table, slice]` gains a sort by id right before the slice |
| OptimizerExamples.CountSliceForks | src/Compiler/AbstractCompiler.php:256-295 | `count` over `[table, slice]` becomes `[table, sort(id), slice, fork]` |
| OptimizerExamples.SortThenFilterProfile | src/Compiler/AbstractCompiler.php:365-420 | the profile of `get` over `[sort, filter]` records a get with a sort, a filter after it and no slice |
| OptimizerExamples.SortThenFilterTakeSorts | src/Compiler/AbstractCompiler.php:306-307 | removing the sorts from `[sort, filter]` keeps the filter and reports the sort as removed |
| OptimizerExamples.FilterMovesBeforeSort | src/Compiler/AbstractCompiler.php:297-311 | `[sort, filter]` becomes `[filter, sort]` |
| OptimizerExamples.AnalyzeOptimizedCount | src/Compiler/AbstractCompiler.php:365-420 | the profile of the optimized count request again asks for a fork (count with a slice) |
| OptimizerExamples.ForkOptimizedCount | src/Compiler/AbstractCompiler.php:283-295 | inserting a fork after the slice of the optimized count request yields a second fork |
| OptimizerExamples.OptimizeTwiceForksTwice | src/Compiler/AbstractCompiler.php:230-314 | optimizing the optimized count request again adds a second fork, so `optimize` is not idempotent |
| Overloads.SignatureMatches | src/Compiler/AbstractCompiler.php:727-747 | a signature matches exactly when slot 0 equals the first type and each of slots 1 and 2 that the signature declares equals the type at that position |
| Overloads.FirstMatch | src/Compiler/AbstractCompiler.php:712-719 | the index found is the first overload that matches, and none matches when it finds nothing |
| Overloads.ReturnType | src/Compiler/AbstractCompiler.php:708-725 | false exactly for unknown names; otherwise the return type of the first matching overload, or of the first overload when none matches (null for an empty list) |
| Overloads.MatchesDeclaredSlots | src/Compiler/AbstractCompiler.php:727-747 | for one to three slots, a signature matches exactly when each declared slot equals the supplied type at that position; types past the arity are ignored |
| Overloads.MatchesFirstThreeSlots | src/Compiler/AbstractCompiler.php:727-747 | with more than three slots only the first three are compared |
| Overloads.EmptySignatureMatchesUntyped | src/Compiler/AbstractCompiler.php:729-731 | a signature without slots matches exactly an untyped first operand |
| Compiler.UnaryExpr | src/Compiler/AbstractCompiler.php:555-571 | an expression is built exactly for `uppercase`, `lowercase` and `not`, and it holds the operand as its only sub-expression |
| Compiler.BinaryExpr | src/Compiler/AbstractCompiler.php:596-657 | an expression is built exactly for the binary names the compiler knows, holding the first operand first and the second second; `plus` is concatenation exactly when the left operand's type is string and addition otherwise; `notEqual` is the negated equality of the two operands |
| Compiler.ScanParameter | src/Compiler/AbstractCompiler.php:779-792 | succeeds exactly when the first token is a parameter and returns its name |
| Compiler.ScanJoin | src/Compiler/AbstractCompiler.php:822-834 | succeeds exactly when the first token is a join and returns it |
| Compiler.ScanProperty | src/Compiler/AbstractCompiler.php:794-807 | succeeds exactly on a value token and returns its contents |
| Compiler.ScanFunction | src/Compiler/AbstractCompiler.php:809-820 | succeeds exactly on a function token and returns its name and arguments |
| Compiler.LastContextual | src/Compiler/AbstractCompiler.php:450-453 | after a run of joins the contextual join is the last contextual one among them, or the previous one when none is contextual |
| Compiler.Input.Request | src/Compiler/AbstractCompiler.php:749-759 | a parameter use is appended to the binder's log and the id is the binder's answer for that log |
| Compiler.Statement.AddJoin | src/Compiler/AbstractCompiler.php:456-467 | the join edge is appended to the statement's joins and the new context handle returned; the where clause is kept |
| Compiler.Statement.SetWhere | src/Compiler/AbstractCompiler.php:442 | the where clause is set and the joins are kept |
| Compiler.Compiler.constructor | src/Compiler/AbstractCompiler.php:112-128 | `__construct` (112-116) stores only the signatures and the schema (here the property resolver). The fields it leaves unset get the values `parentReset` (118-128) assigns: the request and statement passed in, a fresh binder with nothing bound, null contexts and contextual join, and an empty save-point stack |
| Compiler.Compiler.ParentReset | src/Compiler/AbstractCompiler.php:118-128 | request and statement replaced, a fresh empty binder, all contexts null, empty save-point stack |
| Compiler.Compiler.SetRollbackPoint | src/Compiler/AbstractCompiler.php:847-850 | pushes exactly one snapshot of (context, contextJoin, input, mysql) and changes nothing else |
| Compiler.Compiler.ClearRollbackPoint | src/Compiler/AbstractCompiler.php:852-855 | pops exactly one snapshot (nothing when the stack is empty) and changes nothing else |
| Compiler.Compiler.Rollback | src/Compiler/AbstractCompiler.php:857-864 | pops the top snapshot and restores context, contextJoin, input and mysql from it; since snapshots hold handles, input and mysql are the same objects |
| Compiler.Compiler.ConditionallyRollback | src/Compiler/AbstractCompiler.php:836-845 | returns the success flag and pops exactly one snapshot; on failure context and contextJoin equal the pushed values, on success they are kept |
| Compiler.JoinsHandled | src/Compiler/AbstractCompiler.php:450-479 | handling joins binds nothing; only the statement that receives joins gains edges; in a subquery the main statement and its context are untouched, and otherwise the subquery context is untouched |
| Compiler.JoinsHandledChain | src/Compiler/AbstractCompiler.php:456-479 | handling a run of joins logs one edge per join in order; the first edge starts from the entry context and each later one from the handle returned for the edge before it; the context (or the subquery context) ends at the last handle, or stays put when there are no joins |
| Compiler.JoinsHandledContextJoin | src/Compiler/AbstractCompiler.php:450-453 | after a run of joins the contextual join is the last contextual one among them (`LastContextual`) |
| Compiler.Compiler.HandleJoin | src/Compiler/AbstractCompiler.php:450-469 | the new state is `Joined` of the old one: a contextual join becomes the contextual join, and the edge from the current context is added to the subquery (moving the subquery context to the returned handle) when there is one, else to the main statement (moving the context); nothing is bound |
| Compiler.Compiler.FollowJoins | src/Compiler/AbstractCompiler.php:471-479 | consumes exactly the leading join tokens and returns the rest, which starts with no join; the new state is those joins handled in order (`JoinsHandled`), so the edges form the chain of `JoinChain`, the context or subquery context ends at the last handle, and the contextual join is the last contextual one |
| Compiler.Compiler.Compile | src/Compiler/AbstractCompiler.php:481-519 | every compile puts the context back; it only extends the binder log and the joins of the statement that receives them, and leaves the subquery context alone outside a subquery; a compile as required binds only required uses |
| Compiler.Compiler.CompileJoin | src/Compiler/AbstractCompiler.php:490-497 | the join's edge, from the entry context (or subquery context), is at the first new position of the receiving statement's log, whether or not the rest compiles; the logs only grow; compiling as required binds only required uses |
| Compiler.Compiler.CompileFunction | src/Compiler/AbstractCompiler.php:521-541 | a function compile puts the context back, only extends the logs, and binds only required uses when compiled as required |
| Compiler.Compiler.CompileUnary | src/Compiler/AbstractCompiler.php:543-572 | a unary compile puts the context back and only extends the logs; `length`, or any name compiled as required, binds only required uses |
| Compiler.Compiler.CompileLength | src/Compiler/AbstractCompiler.php:574-583 | a length compile puts the context back, only extends the logs, and binds only required uses whatever the caller asked |
| Compiler.Compiler.CompileBinary | src/Compiler/AbstractCompiler.php:585-658 | a binary compile puts the context back and only extends the logs; compiled as required, both operands bind only required uses |
| Compiler.Compiler.CompileTernary | src/Compiler/AbstractCompiler.php:660-681 | a ternary compile puts the context back and only extends the logs; `substring`, or any name compiled as required, binds only required uses |
| Compiler.Compiler.CompileSubstring | src/Compiler/AbstractCompiler.php:683-706 | a substring compile puts the context back, only extends the logs, and binds the string operand and both bounds as required |
| Compiler.Compiler.CompileLeaf | src/Compiler/AbstractCompiler.php:481-519 | no token, a table or a list fails and leaves the state as it is; a value is the property resolver's answer in the entry state, which it leaves as it is; a parameter binds exactly one argument use with the caller's optionality and is the id the binder gives for it, or fails when there is none |
| Compiler.Compiler.BinaryStateIgnoresName | src/Compiler/AbstractCompiler.php:585-658 | two binary names compiled over the same arguments leave the same state (the operator decides only the expression and type), and two known names succeed or fail together |
| Compiler.Compiler.NotEqualNegatesEqual | src/Compiler/AbstractCompiler.php:632-635 | `notEqual` succeeds exactly when `equal` does, leaves the same state, and its expression is the negation of `equal`'s |
| Compiler.Compiler.RequiredWhateverOptionality | src/Compiler/AbstractCompiler.php:574-706 | `length` and `substring` compile to the same outcome and state whether or not the caller asked for optional bindings |
| Compiler.Compiler.JoinsStayLogged | src/Compiler/AbstractCompiler.php:481-519 | a compile of tokens that start with k joins puts the context back, and the receiving statement keeps at least k new edges even when the compile fails, because a rollback restores handles and does not remove edges |
| Compiler.Compiler.GetParameter | src/Compiler/AbstractCompiler.php:749-759 | one argument use with the given optionality is logged; the result is a parameter expression of the bound id, or failure when the binder gives none |
| Compiler.Compiler.GetExpression | src/Compiler/AbstractCompiler.php:481-519 | the result and the whole new state (binder log, contexts, contextual join, both statements' joins) are exactly what `Compile` gives from the entry state; the context is restored, and a failed join restores the contextual join; compiling as required binds only required uses |
| Compiler.Compiler.GetJoinExpression | src/Compiler/AbstractCompiler.php:490-497 | the result and new state are `CompileJoin`'s: the rest is compiled in the state after `handleJoin`, kept on success and rolled back (context and contextual join) on failure; the join's edge from the entry context is on the receiving statement either way; the save-point stack is as before |
| Compiler.Compiler.GetFunction | src/Compiler/AbstractCompiler.php:521-541 | the result and new state are `CompileFunction`'s; any argument count other than one, two or three fails and logs nothing |
| Compiler.Compiler.GetUnaryFunction | src/Compiler/AbstractCompiler.php:543-572 | the result and new state are `CompileUnary`'s: `length` goes to the length compiler; otherwise the operand is compiled from the entry state with the caller's optionality, and uppercase, lowercase and not build their expression around it, typed by overload resolution on its type; other names fail |
| Compiler.Compiler.GetLengthFunction | src/Compiler/AbstractCompiler.php:574-583 | the result and new state are `CompileLength`'s: the operand is compiled as required from the entry state, and the result is its character length, typed integer |
| Compiler.Compiler.GetBinaryFunction | src/Compiler/AbstractCompiler.php:585-658 | the result and new state are `CompileBinary`'s: the first operand is compiled from the entry state, and then the second in exactly the state the first left; the named operator is built over them in that order, typed by overload resolution on both types; unknown names fail |
| Compiler.Compiler.GetTernaryFunction | src/Compiler/AbstractCompiler.php:660-681 | the result and new state are `CompileTernary`'s: `substring` goes to the substring compiler; any other name compiles the three operands in order, stopping at the first failure, and then fails |
| Compiler.Compiler.GetSubstringFunction | src/Compiler/AbstractCompiler.php:683-706 | the result and new state are `CompileSubstring`'s: the string is compiled as required from the entry state; begin and end must each start with a parameter token; a begin use and then an end use are bound right after the string's uses, as required whatever the caller asked; the result is a substring over the two bound ids, typed string |
| Compiler.Compiler.GetOptionalFilterFunction | src/Compiler/AbstractCompiler.php:422-448 | no leading filter: false, and nothing changes; a filter without arguments: the no-filter-arguments error, and nothing changes; otherwise the new state is what `Compile` gives for the filter's first argument as required; when that compile succeeds the where clause is its expression, the filter is shifted off the request and the result is true; when it fails the result is the bad-filter-expression error and the request and where clause are kept |
| FunctionTable.FirstIdentical | src/Functions.php:69-76 | the index found is the first overload whose argument list is identical to the supplied types, and none is identical when it finds nothing |
| FunctionTable.Functions.GetSignature | src/Functions.php:62-77 | null for an unknown name, an empty overload list or no identical argument list; otherwise the first overload whose argument list is identical (same length, same order) |
| FunctionTable.ArgTypes | src/Functions.php:88-110 | one type per argument, in order: position 3 of a function token, position 2 of the others, element 0 of it when it is an array |
| FunctionTable.ListShapeIsLast | src/Functions.php:88-110 | element 1 of the last argument whose type slot is an array, or null when no argument has one |
| FunctionTable.Functions.GetOutputType | src/Functions.php:86-122 | the loop collects exactly the argument types and the last list shape, and the result is the specified output type |
| FunctionTable.OutputTypeCases | src/Functions.php:112-121 | null exactly when no overload is identical to the argument types; `[list, shape]` exactly when the matched overload returns a list; otherwise the matched return type |
| FunctionTable.New | src/Functions.php:49-52 | a null or empty table falls back to the built-in one, any other is used as given; the table in use is never empty |
| FunctionTable.DefaultTable | src/Functions.php:131-324 | every built-in function name has at least one overload |
| FunctionTable.DefaultArity | src/Functions.php:131-324 | every built-in overload takes one to three arguments, so longer argument lists find no signature |
| FunctionTable.DividesReturnsFloat | src/Functions.php:191-211 | every `divides` overload returns float |
| FunctionTable.ComparisonsReturnBoolean | src/Functions.php:213-304 | every overload of equal, notEqual, less, lessEqual, greater and greaterEqual returns boolean |
| FunctionTable.OnlyPlusConcatenates | src/Functions.php:149-211 | among plus, minus, times and divides only `plus` has a (string, string) overload, and it returns string |
| FunctionTable.SliceAndLengthSignatures | src/Functions.php:282-320 | `slice` is exactly (list, integer, integer) to list and `length` exactly (string) to integer |
| FunctionTable.SortLookup | tests/src/FunctionsTest.php:46-53 | `sort(list, boolean)` finds the (list, boolean) to list overload |
| FunctionTable.EqualLookups | tests/src/FunctionsTest.php:54-69 | `equal` with two booleans or two integers finds the matching boolean-valued overload |
| FunctionTable.LessMixedLookup | tests/src/FunctionsTest.php:70-77 | `less(integer, float)` finds the mixed overload |
| FunctionTable.EqualMismatchLookup | tests/src/FunctionsTest.php:78-82 | `equal(boolean, string)` finds nothing |
| FunctionTable.ScalarOutputType | tests/src/FunctionsTest.php:110-126 | `equal` of two integer properties gives boolean |
| FunctionTable.ListOutputType | tests/src/FunctionsTest.php:127-147 | `sort` of a list-typed property gives the list type with that property's shape |
| TypeResolution.TypeResolver.GetType | src/Resolver/Type.php:162-167 | the schema is asked for the dotted path of context then name; element 0 of its entry, or null when it has none |
| TypeResolution.TypeResolver.FunctionContext | src/Resolver/Type.php:132-152 | with no arguments, or a leftmost chain not ending in a property, the context is unchanged; otherwise the chain's property name is put in front of it |
| TypeResolution.TypeResolver.ApplyChildren | src/Resolver/Type.php:78-85 | length and order are kept and each child is resolved on its own in the same context |
| TypeResolution.TypeResolver.ApplyDeep | src/Resolver/Type.php:95-122 | the token kind is kept |
| TypeResolution.TypeResolver.Apply | src/Resolver/Type.php:65-68 | resolving from an empty context keeps the token kind and everything but property types |
| TypeResolution.ShapePreserved | src/Resolver/Type.php:95-122 | only property types change: names, kinds, child order, function return slots and object type slots are kept at every depth |
| TypeResolution.ApplyDeepIdempotent | src/Resolver/Type.php:95-152 | resolving a resolved tree again in the same context changes nothing |
| TypeResolution.LeftmostPropertyInOwnContext | src/Resolver/Type.php:98-100 | a function whose first argument is the property p resolves p itself, and every later argument, in the context p followed by the outer context |
| PropertyTypeResolution.PropertyTypeResolver.constructor | src/Resolver/PropertyType.php:57-60 | the schema's classes are stored and no tree is cached |
| PropertyTypeResolution.PropertyTypeResolver.GetTypeTree | src/Resolver/PropertyType.php:141-155 | the nested loops build exactly the type tree of the schema; once cached, the same tree is returned and the cache is never replaced |
| PropertyTypeResolution.PropertyTypeResolver.GetType | src/Resolver/PropertyType.php:123-134 | the loop's result is the specified walk through the tree |
| PropertyTypeResolution.PropertyTypeResolver.ApplyChildren | src/Resolver/PropertyType.php:78-85 | each child resolved in the given context, in order |
| PropertyTypeResolution.PropertyTypeResolver.ApplyDeep | src/Resolver/PropertyType.php:95-113 | the result is the specified resolution: function and object children in an empty context, properties typed by the walk, everything else unchanged |
| PropertyTypeResolution.PropertyTypeResolver.Apply | src/Resolver/PropertyType.php:65-68 | as written, the resolution is computed (possibly filling the cache) and nothing is returned |
| PropertyTypeResolution.PropertyTypeResolver.ApplyReturning | src/Resolver/PropertyType.php:65-68 | the corrected `apply` returns the resolved request |
| PropertyTypeResolution.ResolveChildren | src/Resolver/PropertyType.php:78-85 | length and order are kept and each child is resolved on its own |
| PropertyTypeResolution.PropertyMapKeys | src/Resolver/PropertyType.php:147-149 | a class's property keys are exactly the lower-cased property names |
| PropertyTypeResolution.PropertyMapLastWins | src/Resolver/PropertyType.php:147-149 | a property holds the entry of its last case-insensitive occurrence |
| PropertyTypeResolution.TypeTreeKeys | src/Resolver/PropertyType.php:141-154 | the tree's keys are exactly the lower-cased class names, and each class maps to an array with lower-case keys |
| PropertyTypeResolution.TypeTreeLastWins | src/Resolver/PropertyType.php:145-150 | a class holds only the properties of its last case-insensitive occurrence (a colliding class replaces, it does not merge) |
| PropertyTypeResolution.TypeAtWalk | src/Resolver/PropertyType.php:123-134 | the lookup succeeds exactly when every context node is set along the way and the property is set at the end, giving the stored entry; otherwise null |
| PropertyTypeResolution.TypeAtCaseInsensitive | src/Resolver/PropertyType.php:123-134 | the lookup ignores letter case in the context and the property name |
| PropertyTypeResolution.SchemaLookup | src/Resolver/PropertyType.php:123-154 | a property of a class named in the context gives, in any letter case, the entry of its last occurrence in the last occurrence of that class |
| PropertyTypeResolution.UnknownClassGivesNull | src/Resolver/PropertyType.php:125-128 | a context class missing from the schema gives null |
| PropertyTypeResolution.ResolvedShape | src/Resolver/PropertyType.php:95-113 | only property types change at every depth |
| PropertyTypeResolution.ResolveIdempotent | src/Resolver/PropertyType.php:95-113 | resolving a resolved tree again changes nothing |
| PropertyTypeResolution.ContextStopsAtChildren | src/Resolver/PropertyType.php:95-113 | for any token but a bare property the outer context has no effect, because children are resolved in an empty context |
| PropertyTypeResolution.DeviceIsUntyped | tests/src/Resolver/PropertyTypeTest.php:46-70 | over the test schema's classes, `get(device)` gets the type null, not `Device` |
| ParameterTypeResolution.ApplyChildren | src/Resolver/ParameterType.php:53-60 | a successful walk of a child list keeps its length and hands back the list it was given |
| ParameterTypeResolution.ChildrenWalkIsIdentity | src/Resolver/ParameterType.php:53-60 | a child list walks exactly when every child is well-formed, and is then unchanged |
| ParameterTypeResolution.ApplyDeep | src/Resolver/ParameterType.php:69-85 | a walk that succeeds returns the token it was given; any token other than a function or an object is returned as it is |
| ParameterTypeResolution.WalkIsIdentity | src/Resolver/ParameterType.php:69-85 | the walk succeeds exactly on well-formed trees and returns them unchanged |
| ParameterTypeResolution.Apply | src/Resolver/ParameterType.php:41-44 | `apply` returns the request itself exactly when it is well-formed, and fails otherwise |
| ParameterTypeResolution.ScalarSlotFails | src/Resolver/ParameterType.php:72-76 | a function whose type slot holds a bare type constant cannot be walked |
| ResolverChain.Resolver.constructor | src/Resolver.php:39-44 | the resolvers are registered in the order given |
| ResolverChain.Resolver.AddResolver | src/Resolver.php:51-54 | the resolver is appended at the end and earlier entries are unchanged |
| ResolverChain.Resolver.Resolve | src/Resolver.php:63-70 | the result is the ordered fold of the resolvers over the request; the i-th resolver's input is the fold of the resolvers registered before it |
| ResolverChain.FoldConcat | src/Resolver.php:63-70 | running two resolver lists one after the other is running their concatenation |
| ResolverChain.AddedResolverRunsLast | src/Resolver.php:51-70 | after adding a resolver, resolving gives that resolver applied to the previous chain's result |
| ResolverChain.TwoStages | tests/src/ResolverTest.php:49-70 | a two-resolver chain feeds the first one's output to the second and returns the second one's output |

## Left out

- `getTypes` and `extractExpression` (src/Compiler/AbstractCompiler.php:158-228): they only feed a type inferer that is not part of this model.
- The abstract `getProperty` (src/Compiler/AbstractCompiler.php:135) is the `Compiler.property` oracle. It is a pure function of the value token, the context, the subquery context and the contextual join.
- The MySQL expression classes (`Upper`, `Equal`, `Substring`, `Parameter` and the rest) are constructors of `Compiler.Expr`. How they render as SQL is not modelled.
- `Input` (the parameter binder): an append-only log of uses plus an oracle that gives the id for each use. Its internal bookkeeping is not part of this model.
- `AbstractStatement`: an append-only log of joins, a `where` slot, and an oracle for the context handle that `addJoin` returns.
- The PHP rollback stores object handles. Restoring `input` and `mysql` therefore restores the same objects, and mutations made to them after the save point are not undone.
- Compiler.Compiler.Rollback: requires a non-empty save-point stack. In PHP, popping an empty stack sets all four restored fields to null, and the compiler never does that because every rollback follows a push.
- Compiler.Compiler.GetParameter: the type of a parameter is modelled as untyped (PHP null), because `getParameter` never assigns `$type`.
- Optimizer.GetTopLevelFunction: the `count($token) < 3` check has no branch of its own, because every positional function token has at least three positions and a shorter token is not a function.
- Compiler.Compiler.Valid: requires the subquery to be a statement object other than the main statement. The concrete compilers that set `$this->subquery` are not part of this model, and a shared object would add subquery joins to the main statement too.
- `CompilerException` messages: exceptions are the error codes of `Tokens.CompilerError`.
- Requests are sequences. The key preservation of PHP's `array_filter` in `removeFunction` is not modelled, and neither is the `each()` iteration over single-key tokens.
- FunctionTable.Functions.GetOutputType: requires a function token. The method exists to type function tokens, and positions 1 and 2 of any other token mean something else.
- FunctionTable.New: the given table is a map of signature records. A PHP array of some other shape is not modelled.
- The PHP type constants `Output::TYPE_*` and `Parser::TYPE_*` are modelled as distinct values. Their integer codes are not modelled.
- TypeResolution.TypeResolver.GetType: the schema's `getProperty` is an oracle from a dotted path to an optional entry.
- PropertyTypeResolution.PropertyTypeResolver.GetType: a string is treated as having no keys. PHP's `isset` would also accept a numeric offset into a string.
- PropertyTypeResolution.PropertyTypeResolver.constructor: it takes the schema's `classes` list. A schema without `classes` is the empty list.
- ParameterTypeResolution.ApplyDeep: a type slot holding an array whose elements are all arrays is passed over. PHP would descend into those elements as if they were tokens.
- ResolverChain.Resolver: resolvers are total functions on a request type. When the list given to the constructor is empty, PHP leaves the list undefined and `resolve` iterates over null with a warning. The model treats that case as the empty list, which returns the request unchanged.

## Findings

| source | as written | input that shows it | evidently intended | confidence | as-written member | corrected member |
|---|---|---|---|---|---|---|
| src/Resolver/PropertyType.php:65-68 | `apply` calls `applyDeep` and discards its result, so it returns null | any request, e.g. `get(device)` from tests/src/Resolver/PropertyTypeTest.php:46-70, where the test expects a token back | return the resolved request, as `Type::apply` does | not executed | PropertyTypeResolution.PropertyTypeResolver.Apply | PropertyTypeResolution.PropertyTypeResolver.ApplyReturning |
