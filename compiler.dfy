/**
 * The stateful part of the query compiler: the expression compiler, the join
 * bookkeeping and the LIFO stack of rollback points. The parameter binder
 * (`Input`) and the statement builder are modelled as logs plus oracles for
 * the values they hand back; the column resolver `getProperty` is an oracle.
 */
module Compiler {
  import opened Wrappers
  import opened Types
  import opened Tokens
  import opened Overloads

  // ---------------------------------------------------------------------------
  // Expressions built for the statement renderer
  // ---------------------------------------------------------------------------

  /** The expression objects the compiler creates; rendering them is not modelled. */
  datatype Expr =
    | Column(table: string, name: string)
    | Parameter(id: Option<nat>)
    | Upper(e: Expr)
    | Lower(e: Expr)
    | Not(e: Expr)
    | CharacterLength(e: Expr)
    | Concatenate(a: Expr, b: Expr)
    | Plus(a: Expr, b: Expr)
    | Minus(a: Expr, b: Expr)
    | Times(a: Expr, b: Expr)
    | Divides(a: Expr, b: Expr)
    | Equal(a: Expr, b: Expr)
    | And(a: Expr, b: Expr)
    | Or(a: Expr, b: Expr)
    | Less(a: Expr, b: Expr)
    | LessEqual(a: Expr, b: Expr)
    | Greater(a: Expr, b: Expr)
    | GreaterEqual(a: Expr, b: Expr)
    | RegexpBinary(a: Expr, b: Expr)
    | Substring(s: Expr, begin: Expr, end: Expr)

  /** A compiled expression and its type: the two by-reference outputs of a successful compile. */
  datatype Compiled = Compiled(expr: Expr, ty: TypeValue)

  /** The unary names that build an expression (`length` has its own builder). */
  const UnaryNames: set<string> := {"uppercase", "lowercase", "not"}

  /** The binary names that build an expression. */
  const BinaryNames: set<string> := {"plus", "minus", "times", "divides", "equal", "and", "or",
    "notEqual", "less", "lessEqual", "greater", "greaterEqual", "match"}

  /** The immediate sub-expressions, in the order the expression holds them. */
  function Operands(e: Expr): seq<Expr>
  {
    match e
    case Column(_, _) => []
    case Parameter(_) => []
    case Upper(x) => [x]
    case Lower(x) => [x]
    case Not(x) => [x]
    case CharacterLength(x) => [x]
    case Concatenate(x, y) => [x, y]
    case Plus(x, y) => [x, y]
    case Minus(x, y) => [x, y]
    case Times(x, y) => [x, y]
    case Divides(x, y) => [x, y]
    case Equal(x, y) => [x, y]
    case And(x, y) => [x, y]
    case Or(x, y) => [x, y]
    case Less(x, y) => [x, y]
    case LessEqual(x, y) => [x, y]
    case Greater(x, y) => [x, y]
    case GreaterEqual(x, y) => [x, y]
    case RegexpBinary(x, y) => [x, y]
    case Substring(x, y, z) => [x, y, z]
  }

  /** The expression a unary name builds around its operand. */
  function UnaryExpr(name: string, e: Expr): (r: Option<Expr>)
    ensures r.Some? <==> name in UnaryNames
    ensures r.Some? ==> Operands(r.value) == [e] && !r.value.CharacterLength?
  {
    if name == "uppercase" then Some(Upper(e))
    else if name == "lowercase" then Some(Lower(e))
    else if name == "not" then Some(Not(e))
    else None
  }

  /**
   * The expression a binary name builds; `plus` concatenates when its first
   * operand is a string and `notEqual` negates an equality.
   */
  function BinaryExpr(name: string, typeA: TypeValue, a: Expr, b: Expr): (r: Option<Expr>)
    ensures r.Some? <==> name in BinaryNames
    ensures r.Some? && name != "notEqual" ==> Operands(r.value) == [a, b]
    ensures name == "notEqual" ==> r == Some(Not(Equal(a, b)))
    ensures name == "plus" ==> (r.value.Concatenate? <==> typeA == Typed(Types.String))
    ensures name == "plus" ==> (r.value.Plus? <==> typeA != Typed(Types.String))
  {
    if name == "plus" then Some(if typeA == Typed(Types.String) then Concatenate(a, b) else Plus(a, b))
    else if name == "minus" then Some(Minus(a, b))
    else if name == "times" then Some(Times(a, b))
    else if name == "divides" then Some(Divides(a, b))
    else if name == "equal" then Some(Equal(a, b))
    else if name == "and" then Some(And(a, b))
    else if name == "or" then Some(Or(a, b))
    else if name == "notEqual" then Some(Not(Equal(a, b)))
    else if name == "less" then Some(Less(a, b))
    else if name == "lessEqual" then Some(LessEqual(a, b))
    else if name == "greater" then Some(Greater(a, b))
    else if name == "greaterEqual" then Some(GreaterEqual(a, b))
    else if name == "match" then Some(RegexpBinary(a, b))
    else None
  }

  // ---------------------------------------------------------------------------
  // The parameter binder and the statement builder
  // ---------------------------------------------------------------------------

  /** One request to the parameter binder; `optional` is the `$hasZero` flag (IS_REQUIRED is false). */
  datatype Use =
    | ArgumentUse(name: string, optional: bool)
    | SubstringBeginUse(name: string, optional: bool)
    | SubstringEndUse(beginName: string, endName: string, optional: bool)

  /** The parameter binder: a log of what was bound, and an oracle for the ids it returns. */
  class Input {
    var uses: seq<Use>
    const bind: (seq<Use>, Use) -> Option<nat>

    constructor(bind: (seq<Use>, Use) -> Option<nat>)
      ensures uses == [] && this.bind == bind
    {
      uses := [];
      this.bind := bind;
    }

    method Request(u: Use) returns (id: Option<nat>)
      modifies this
      ensures uses == old(uses) + [u]
      ensures id == bind(old(uses), u)
    {
      id := bind(uses, u);
      uses := uses + [u];
    }
  }

  /** One `addJoin` call: the context it starts from and the edge it adds. */
  datatype Edge = Edge(from: Option<int>, tableB: string, expression: string)

  /** The statement builder: the joins added, the WHERE clause set, and an oracle for join handles. */
  class Statement {
    var joins: seq<Edge>
    var where: Option<Expr>
    const handle: (seq<Edge>, Edge) -> int

    constructor(handle: (seq<Edge>, Edge) -> int)
      ensures joins == [] && where == None && this.handle == handle
    {
      joins := [];
      where := None;
      this.handle := handle;
    }

    method AddJoin(from: Option<int>, tableB: string, expression: string) returns (h: int)
      modifies this
      ensures joins == old(joins) + [Edge(from, tableB, expression)]
      ensures where == old(where)
      ensures h == handle(old(joins), Edge(from, tableB, expression))
    {
      h := handle(joins, Edge(from, tableB, expression));
      joins := joins + [Edge(from, tableB, expression)];
    }

    method SetWhere(e: Expr)
      modifies this
      ensures where == Some(e) && joins == old(joins)
    {
      where := Some(e);
    }
  }

  // ---------------------------------------------------------------------------
  // Scanning the head of a token list
  // ---------------------------------------------------------------------------

  /** `scanParameter`: the name, when the first token is a parameter. */
  function ScanParameter(tokens: seq<Token>): (r: Option<string>)
    ensures r.Some? <==> |tokens| > 0 && tokens[0].Parameter?
    ensures r.Some? ==> tokens[0] == Token.Parameter(r.value)
  {
    if |tokens| > 0 && tokens[0].Parameter? then Some(tokens[0].name) else None
  }

  /** `scanJoin`: the join, when the first token is a join. */
  function ScanJoin(tokens: seq<Token>): (r: Option<JoinInfo>)
    ensures r.Some? <==> |tokens| > 0 && tokens[0].Join?
    ensures r.Some? ==> tokens[0] == Join(r.value)
  {
    if |tokens| > 0 && tokens[0].Join? then Some(tokens[0].join) else None
  }

  /** `scanProperty`: the column reference, when the token is a value. */
  function ScanProperty(t: Token): (r: Option<ValueInfo>)
    ensures r.Some? <==> t.Value?
    ensures r.Some? ==> t == Value(r.value)
  {
    if t.Value? then Some(t.info) else None
  }

  /** The name and arguments of a function token. */
  datatype FunctionScan = FunctionScan(name: string, arguments: seq<Argument>)

  /** `scanFunction`: the name and arguments, when the token is a function. */
  function ScanFunction(t: Token): (r: Option<FunctionScan>)
    ensures r.Some? <==> t.Function?
    ensures r.Some? ==> t == Function(r.value.name, r.value.arguments)
  {
    if t.Function? then Some(FunctionScan(t.name, t.arguments)) else None
  }

  // ---------------------------------------------------------------------------
  // The compiler
  // ---------------------------------------------------------------------------


  /** One rollback point: the context, the contextual join, and the binder and builder handles. */
  datatype Snapshot = Snapshot(context: Option<int>, contextJoin: Option<JoinInfo>, input: Input, mysql: Statement)

  /**
   * The state a compile step reads and changes: the binder's log, the three
   * pieces of context that `getProperty` reads, and the joins of the main
   * statement and of the subquery (empty when there is none).
   */
  datatype Entry = Entry(log: seq<Use>, context: Option<int>, subqueryContext: Option<int>, contextJoin: Option<JoinInfo>,
                         joins: seq<Edge>, subqueryJoins: seq<Edge>)

  /**
   * What no compile step changes: the binder's answers, the handles the two
   * statements hand out, and whether joins go to a subquery.
   */
  datatype Env = Env(bind: (seq<Use>, Use) -> Option<nat>, handle: (seq<Edge>, Edge) -> int,
                     subqueryHandle: (seq<Edge>, Edge) -> int, inSubquery: bool)

  /** A compile's by-reference outputs (when it succeeds) and the state it leaves. */
  datatype Outcome = Outcome(result: Option<Compiled>, exit: Entry)

  /** From `at` to `exit` the binder's log only grows, and only the statement that receives joins gains any. */
  predicate Extends(at: Entry, exit: Entry, inSubquery: bool)
  {
    && at.log <= exit.log
    && (inSubquery ==> exit.joins == at.joins && at.subqueryJoins <= exit.subqueryJoins)
    && (!inSubquery ==> at.joins <= exit.joins && exit.subqueryJoins == at.subqueryJoins && exit.subqueryContext == at.subqueryContext)
  }

  /**
   * `handleJoin` on states: a contextual join becomes the contextual join,
   * and the edge from the current context is added to the subquery (moving
   * the subquery context) when there is one, else to the main statement
   * (moving the context) — each time to the handle the statement returns.
   */
  function Joined(at: Entry, j: JoinInfo, env: Env): Entry
  {
    var contextJoin := if j.isContextual then Some(j) else at.contextJoin;
    if env.inSubquery then
      var e := Edge(at.subqueryContext, j.tableB, j.expression);
      at.(contextJoin := contextJoin, subqueryJoins := at.subqueryJoins + [e],
          subqueryContext := Some(env.subqueryHandle(at.subqueryJoins, e)))
    else
      var e := Edge(at.context, j.tableB, j.expression);
      at.(contextJoin := contextJoin, joins := at.joins + [e], context := Some(env.handle(at.joins, e)))
  }

  /** `followJoins` on states: the joins handled one after the other. */
  function JoinsHandled(at: Entry, joins: seq<JoinInfo>, env: Env): (r: Entry)
    ensures Extends(at, r, env.inSubquery) && r.log == at.log
    ensures env.inSubquery ==> r.context == at.context
  {
    if joins == [] then at
    else Joined(JoinsHandled(at, joins[..|joins| - 1], env), joins[|joins| - 1], env)
  }

  /**
   * The edges a run of joins leaves on a statement's log from `start` on: one
   * per join, in order, the first starting from `from` and each later one from
   * the handle the statement returned for the edge before it.
   */
  predicate JoinChain(log: seq<Edge>, start: nat, joins: seq<JoinInfo>, from: Option<int>, handle: (seq<Edge>, Edge) -> int)
  {
    && |log| == start + |joins|
    && forall i :: 0 <= i < |joins| ==>
      && log[start + i].tableB == joins[i].tableB && log[start + i].expression == joins[i].expression
      && log[start + i].from == if i == 0 then from else Some(handle(log[..start + i - 1], log[start + i - 1]))
  }

  /** The context a chain ends in: the handle of its last edge, or `from` when it has none. */
  function ChainEnd(log: seq<Edge>, start: nat, from: Option<int>, handle: (seq<Edge>, Edge) -> int): Option<int>
    requires start <= |log|
  {
    if |log| == start then from else Some(handle(log[..|log| - 1], log[|log| - 1]))
  }

  /** Adding the next join's edge from the end of a chain extends the chain. */
  lemma ChainSnoc(log: seq<Edge>, start: nat, joins: seq<JoinInfo>, from: Option<int>, handle: (seq<Edge>, Edge) -> int, j: JoinInfo)
    requires JoinChain(log, start, joins, from, handle)
    ensures var e := Edge(ChainEnd(log, start, from, handle), j.tableB, j.expression);
      && JoinChain(log + [e], start, joins + [j], from, handle)
      && ChainEnd(log + [e], start, from, handle) == Some(handle(log, e))
  {
    var e := Edge(ChainEnd(log, start, from, handle), j.tableB, j.expression);
    var log', joins' := log + [e], joins + [j];
    assert log'[..|log'| - 1] == log;
    forall i | 0 <= i < |joins'|
      ensures && log'[start + i].tableB == joins'[i].tableB && log'[start + i].expression == joins'[i].expression
              && log'[start + i].from == if i == 0 then from else Some(handle(log'[..start + i - 1], log'[start + i - 1]))
    {
      if i < |joins| {
        assert log'[start + i] == log[start + i] && joins'[i] == joins[i];
        if 0 < i {
          assert log'[..start + i - 1] == log[..start + i - 1];
        }
      } else if 0 < i {
        assert log'[..start + i - 1] == log[..|log| - 1];
      }
    }
  }

  /**
   * Handling a run of joins chains their edges on the receiving statement,
   * each from the context the previous one left, and leaves the context (or
   * the subquery context) at the end of the chain.
   */
  lemma {:induction false} JoinsHandledChain(at: Entry, joins: seq<JoinInfo>, env: Env)
    ensures var r := JoinsHandled(at, joins, env);
      if env.inSubquery then
        && JoinChain(r.subqueryJoins, |at.subqueryJoins|, joins, at.subqueryContext, env.subqueryHandle)
        && r.subqueryContext == ChainEnd(r.subqueryJoins, |at.subqueryJoins|, at.subqueryContext, env.subqueryHandle)
      else
        && JoinChain(r.joins, |at.joins|, joins, at.context, env.handle)
        && r.context == ChainEnd(r.joins, |at.joins|, at.context, env.handle)
    decreases |joins|
  {
    if joins != [] {
      var n := |joins| - 1;
      assert joins == joins[..n] + [joins[n]];
      JoinsHandledChain(at, joins[..n], env);
      var prev := JoinsHandled(at, joins[..n], env);
      if env.inSubquery {
        ChainSnoc(prev.subqueryJoins, |at.subqueryJoins|, joins[..n], at.subqueryContext, env.subqueryHandle, joins[n]);
      } else {
        ChainSnoc(prev.joins, |at.joins|, joins[..n], at.context, env.handle, joins[n]);
      }
    }
  }

  /** Handling a run of joins leaves the last contextual one of them as the contextual join. */
  lemma {:induction false} JoinsHandledContextJoin(at: Entry, joins: seq<JoinInfo>, env: Env)
    ensures JoinsHandled(at, joins, env).contextJoin == LastContextual(at.contextJoin, joins)
    decreases |joins|
  {
    if joins != [] {
      JoinsHandledContextJoin(at, joins[..|joins| - 1], env);
    }
  }

  /** The contextual join in effect after handling these joins in order: the last contextual one, if any. */
  function LastContextual(current: Option<JoinInfo>, joins: seq<JoinInfo>): (r: Option<JoinInfo>)
    ensures r == current || (r.Some? && r.value in joins && r.value.isContextual)
    ensures (forall j :: j in joins ==> !j.isContextual) ==> r == current
  {
    if joins == [] then current
    else
      var n := |joins| - 1;
      assert joins == joins[..n] + [joins[n]];
      if joins[n].isContextual then Some(joins[n]) else LastContextual(current, joins[..n])
  }

  /** The first k tokens are joins. */
  predicate LeadingJoins(tokens: seq<Token>, k: nat)
  {
    k <= |tokens| && forall i :: 0 <= i < k ==> tokens[i].Join?
  }

  /** The payloads of the first k tokens, all of them joins. */
  function JoinPrefix(tokens: seq<Token>, k: nat): (r: seq<JoinInfo>)
    requires LeadingJoins(tokens, k)
    ensures |r| == k && forall i :: 0 <= i < k ==> r[i] == tokens[i].join
  {
    if k == 0 then [] else JoinPrefix(tokens, k - 1) + [tokens[k - 1].join]
  }

  lemma JoinPrefixSnoc(tokens: seq<Token>, k: nat)
    requires LeadingJoins(tokens, k + 1)
    ensures JoinPrefix(tokens, k + 1) == JoinPrefix(tokens, k) + [tokens[k].join]
    ensures JoinPrefix(tokens, k + 1)[..k] == JoinPrefix(tokens, k)
  {
  }

  /** Every binding added after `before` was requested as required. */
  predicate RequiredSince(before: seq<Use>, after: seq<Use>)
  {
    forall i :: |before| <= i < |after| ==> !after[i].optional
  }

  class Compiler {
    /** The overload table the compiler was constructed with. */
    const signatures: SignatureTable
    /** The schema-dependent column resolver (`getProperty`), given the context, subquery context and contextual join. */
    const property: (ValueInfo, Option<int>, Option<int>, Option<JoinInfo>) -> Option<Compiled>

    var request: Request
    var input: Input
    var context: Option<int>
    var mysql: Statement
    var subquery: Statement?
    var subqueryContext: Option<int>
    var contextJoin: Option<JoinInfo>
    var rollbackPoint: seq<Snapshot>

    /** The subquery is a statement of its own, and every rollback point holds the binder and builder currently in use. */
    predicate Valid()
      reads this
    {
      && subquery != mysql
      && forall k :: 0 <= k < |rollbackPoint| ==> rollbackPoint[k].input == input && rollbackPoint[k].mysql == mysql
    }

    /**
     * What every compile step keeps: the handles, the rollback stack, the
     * request and the WHERE clause; the binder's and builder's logs only grow.
     */
    twostate predicate Grows()
      reads this, input, mysql, subquery
    {
      && input == old(input) && mysql == old(mysql) && subquery == old(subquery)
      && request == old(request) && rollbackPoint == old(rollbackPoint)
      && old(input.uses) <= input.uses
      && old(mysql.joins) <= mysql.joins && mysql.where == old(mysql.where)
      && (subquery != null ==> old(subquery.joins) <= subquery.joins)
    }

    /** The state the next compile step starts from. */
    function At(): Entry
      reads this, input, mysql, subquery
    {
      Entry(input.uses, context, subqueryContext, contextJoin, mysql.joins, if subquery != null then subquery.joins else [])
    }

    /** The binder's and the statements' oracles, and whether there is a subquery. */
    function Environment(): Env
      reads this
    {
      Env(input.bind, mysql.handle, if subquery != null then subquery.handle else mysql.handle, subquery != null)
    }

    /**
     * `__construct` stores only the signatures and the schema (here the
     * `getProperty` resolver); the fields it leaves unset take the values
     * `parentReset` gives them: the request and statement passed in, a fresh
     * binder with nothing bound, no context, subquery or rollback point.
     */
    constructor(signatures: SignatureTable, property: (ValueInfo, Option<int>, Option<int>, Option<JoinInfo>) -> Option<Compiled>,
                request: Request, mysql: Statement, bind: (seq<Use>, Use) -> Option<nat>)
      ensures this.signatures == signatures && this.property == property
      ensures this.request == request && this.mysql == mysql
      ensures fresh(input) && input.uses == [] && input.bind == bind
      ensures context == None && subquery == null && subqueryContext == None && contextJoin == None && rollbackPoint == []
      ensures Valid()
    {
      this.signatures := signatures;
      this.property := property;
      this.request := request;
      this.input := new Input(bind);
      this.context := None;
      this.mysql := mysql;
      this.subquery := null;
      this.subqueryContext := None;
      this.contextJoin := None;
      this.rollbackPoint := [];
    }

    /** `parentReset`: a new request and builder, a fresh binder, and no context, subquery or rollback point. */
    method ParentReset(request: Request, mysql: Statement, bind: (seq<Use>, Use) -> Option<nat>)
      modifies this
      ensures this.request == request && this.mysql == mysql
      ensures fresh(input) && input.uses == [] && input.bind == bind
      ensures context == None && subquery == null && subqueryContext == None && contextJoin == None && rollbackPoint == []
      ensures Valid()
    {
      this.request := request;
      this.input := new Input(bind);
      this.context := None;
      this.mysql := mysql;
      this.subquery := null;
      this.subqueryContext := None;
      this.contextJoin := None;
      this.rollbackPoint := [];
    }

    // -------------------------------------------------------------------------
    // Rollback points
    // -------------------------------------------------------------------------

    method SetRollbackPoint()
      requires Valid()
      modifies this
      ensures rollbackPoint == old(rollbackPoint) + [Snapshot(context, contextJoin, input, mysql)]
      ensures context == old(context) && contextJoin == old(contextJoin) && subqueryContext == old(subqueryContext)
      ensures input == old(input) && mysql == old(mysql) && subquery == old(subquery) && request == old(request)
      ensures Valid()
    {
      rollbackPoint := rollbackPoint + [Snapshot(context, contextJoin, input, mysql)];
    }

    /** Drops the latest rollback point (a no-op on an empty stack, as `array_pop` is). */
    method ClearRollbackPoint()
      requires Valid()
      modifies this
      ensures rollbackPoint == if old(rollbackPoint) == [] then [] else old(rollbackPoint)[..|old(rollbackPoint)| - 1]
      ensures context == old(context) && contextJoin == old(contextJoin) && subqueryContext == old(subqueryContext)
      ensures input == old(input) && mysql == old(mysql) && subquery == old(subquery) && request == old(request)
      ensures Valid()
    {
      if rollbackPoint != [] {
        rollbackPoint := rollbackPoint[..|rollbackPoint| - 1];
      }
    }

    /** Pops the latest rollback point and restores what it saved; the subquery context is not part of it. */
    method Rollback()
      requires Valid() && rollbackPoint != []
      modifies this
      ensures var top := old(rollbackPoint)[|old(rollbackPoint)| - 1];
        context == top.context && contextJoin == top.contextJoin && input == top.input && mysql == top.mysql
      ensures rollbackPoint == old(rollbackPoint)[..|old(rollbackPoint)| - 1]
      ensures input == old(input) && mysql == old(mysql)
      ensures subquery == old(subquery) && subqueryContext == old(subqueryContext) && request == old(request)
      ensures Valid()
    {
      var top := rollbackPoint[|rollbackPoint| - 1];
      rollbackPoint := rollbackPoint[..|rollbackPoint| - 1];
      context := top.context;
      contextJoin := top.contextJoin;
      input := top.input;
      mysql := top.mysql;
    }

    /** Keeps the state on success (dropping the rollback point) and restores it on failure. */
    method ConditionallyRollback(success: bool) returns (r: bool)
      requires Valid() && rollbackPoint != []
      modifies this
      ensures r == success
      ensures rollbackPoint == old(rollbackPoint)[..|old(rollbackPoint)| - 1]
      ensures success ==> context == old(context) && contextJoin == old(contextJoin)
      ensures !success ==> var top := old(rollbackPoint)[|old(rollbackPoint)| - 1];
        context == top.context && contextJoin == top.contextJoin
      ensures input == old(input) && mysql == old(mysql)
      ensures subquery == old(subquery) && subqueryContext == old(subqueryContext) && request == old(request)
      ensures Valid()
    {
      if success {
        ClearRollbackPoint();
        r := true;
      } else {
        Rollback();
        r := false;
      }
    }

    // -------------------------------------------------------------------------
    // Joins
    // -------------------------------------------------------------------------

    /**
     * `handleJoin`: a contextual join becomes the contextual join; the edge is
     * added to the subquery (moving the subquery context) when there is one,
     * else to the main statement (moving the context).
     */
    method HandleJoin(j: JoinInfo)
      requires Valid()
      modifies this, mysql, subquery
      ensures Grows() && Valid()
      ensures At() == Joined(old(At()), j, Environment())
      ensures contextJoin == if j.isContextual then Some(j) else old(contextJoin)
      ensures subquery == null ==>
        && mysql.joins == old(mysql.joins) + [Edge(old(context), j.tableB, j.expression)]
        && context == Some(mysql.handle(old(mysql.joins), Edge(old(context), j.tableB, j.expression)))
        && subqueryContext == old(subqueryContext)
      ensures subquery != null ==>
        && subquery.joins == old(subquery.joins) + [Edge(old(subqueryContext), j.tableB, j.expression)]
        && subqueryContext == Some(subquery.handle(old(subquery.joins), Edge(old(subqueryContext), j.tableB, j.expression)))
        && context == old(context)
      ensures input.uses == old(input.uses)
    {
      if j.isContextual {
        contextJoin := Some(j);
      }
      if subquery != null {
        var h := subquery.AddJoin(subqueryContext, j.tableB, j.expression);
        subqueryContext := Some(h);
      } else {
        var h := mysql.AddJoin(context, j.tableB, j.expression);
        context := Some(h);
      }
    }

    /**
     * `followJoins`: handles the leading join tokens in order and returns the
     * tokens after them; the ghost `consumed` counts the joins handled.
     */
    method FollowJoins(tokens: seq<Token>) returns (rest: seq<Token>, ghost consumed: nat)
      requires Valid()
      modifies this, mysql, subquery
      ensures Grows() && Valid()
      ensures consumed <= |tokens| && rest == tokens[consumed..]
      ensures ScanJoin(rest).None?
      ensures LeadingJoins(tokens, consumed)
      ensures At() == JoinsHandled(old(At()), JoinPrefix(tokens, consumed), Environment())
      ensures contextJoin == LastContextual(old(contextJoin), JoinPrefix(tokens, consumed))
      ensures subquery == null ==>
        && JoinChain(mysql.joins, |old(mysql.joins)|, JoinPrefix(tokens, consumed), old(context), mysql.handle)
        && context == ChainEnd(mysql.joins, |old(mysql.joins)|, old(context), mysql.handle)
        && subqueryContext == old(subqueryContext)
      ensures subquery != null ==>
        && JoinChain(subquery.joins, |old(subquery.joins)|, JoinPrefix(tokens, consumed), old(subqueryContext), subquery.handle)
        && subqueryContext == ChainEnd(subquery.joins, |old(subquery.joins)|, old(subqueryContext), subquery.handle)
        && context == old(context)
      ensures input.uses == old(input.uses)
    {
      rest, consumed := tokens, 0;
      ghost var joins: seq<JoinInfo> := [];
      while ScanJoin(rest).Some?
        invariant consumed <= |tokens| && rest == tokens[consumed..] && LeadingJoins(tokens, consumed)
        invariant joins == JoinPrefix(tokens, consumed)
        invariant Valid() && Grows()
        invariant At() == JoinsHandled(old(At()), joins, Environment())
        decreases |rest|
      {
        var j := ScanJoin(rest).value;
        assert tokens[consumed] == Join(j);
        HandleJoin(j);
        JoinPrefixSnoc(tokens, consumed);
        assert (joins + [j])[..|joins|] == joins;
        rest, consumed, joins := rest[1..], consumed + 1, joins + [j];
      }
      JoinsHandledChain(old(At()), joins, Environment());
      JoinsHandledContextJoin(old(At()), joins, Environment());
    }

    // -------------------------------------------------------------------------
    // The expression compiler, on states
    // -------------------------------------------------------------------------

    /**
     * `getExpression` on states: what compiling `tokens` from `at` yields and
     * the state it leaves. A join goes to `CompileJoin`; a parameter binds one
     * argument use and is the id the binder hands out; a value is what
     * `getProperty` resolves in the context; a function goes to
     * `CompileFunction`; anything else (also no token) fails. The context is
     * put back in every case.
     */
    ghost function Compile(tokens: seq<Token>, hasZero: bool, at: Entry, env: Env): (o: Outcome)
      decreases tokens, 1
      ensures Extends(at, o.exit, env.inSubquery) && o.exit.context == at.context
      ensures !hasZero ==> RequiredSince(at.log, o.exit.log)
    {
      var o :=
        if |tokens| == 0 then Outcome(None, at)
        else match tokens[0]
          case Join(_) => CompileJoin(tokens, hasZero, at, env)
          case Parameter(name) =>
            var u := ArgumentUse(name, hasZero);
            var id := env.bind(at.log, u);
            Outcome(if id.Some? then Some(Compiled(Expr.Parameter(id), Untyped)) else None, at.(log := at.log + [u]))
          case Value(info) => Outcome(property(info, at.context, at.subqueryContext, at.contextJoin), at)
          case Function(name, arguments) => CompileFunction(name, arguments, hasZero, at, env)
          case Table(_, _, _) => Outcome(None, at)
          case List(_) => Outcome(None, at);
      Outcome(o.result, o.exit.(context := at.context))
    }

    /**
     * The join case: the join is handled and the rest of the tokens compiled
     * in the state it leaves. A failure puts back the context and the
     * contextual join, as the rollback does; the edge stays on the log, and
     * the subquery context stays moved.
     */
    ghost function CompileJoin(tokens: seq<Token>, hasZero: bool, at: Entry, env: Env): (o: Outcome)
      requires |tokens| > 0 && tokens[0].Join?
      decreases tokens, 0
      ensures Extends(at, o.exit, env.inSubquery)
      ensures !hasZero ==> RequiredSince(at.log, o.exit.log)
      ensures var j := tokens[0].join;
        if env.inSubquery then
          |at.subqueryJoins| < |o.exit.subqueryJoins|
          && o.exit.subqueryJoins[|at.subqueryJoins|] == Edge(at.subqueryContext, j.tableB, j.expression)
        else
          |at.joins| < |o.exit.joins| && o.exit.joins[|at.joins|] == Edge(at.context, j.tableB, j.expression)
    {
      var inner := Compile(tokens[1..], hasZero, Joined(at, tokens[0].join, env), env);
      if inner.result.Some? then inner
      else Outcome(None, inner.exit.(context := at.context, contextJoin := at.contextJoin))
    }

    /** `getFunction` on states: one, two or three arguments; any other count fails and changes nothing. */
    ghost function CompileFunction(name: string, arguments: seq<Argument>, hasZero: bool, at: Entry, env: Env): (o: Outcome)
      decreases arguments, 2
      ensures Extends(at, o.exit, env.inSubquery) && o.exit.context == at.context
      ensures !hasZero ==> RequiredSince(at.log, o.exit.log)
    {
      if |arguments| == 1 then CompileUnary(name, arguments, hasZero, at, env)
      else if |arguments| == 2 then CompileBinary(name, arguments, hasZero, at, env)
      else if |arguments| == 3 then CompileTernary(name, arguments, hasZero, at, env)
      else Outcome(None, at)
    }

    /**
     * `getUnaryFunction` on states: `length` goes to `CompileLength`; another
     * name compiles its operand and builds its expression around it, typed by
     * the overload table, or fails when it is not uppercase, lowercase or not.
     */
    ghost function CompileUnary(name: string, arguments: seq<Argument>, hasZero: bool, at: Entry, env: Env): (o: Outcome)
      requires |arguments| == 1
      decreases arguments, 1
      ensures Extends(at, o.exit, env.inSubquery) && o.exit.context == at.context
      ensures !hasZero || name == "length" ==> RequiredSince(at.log, o.exit.log)
    {
      if name == "length" then CompileLength(arguments, at, env)
      else
        var a := Compile(arguments[0].tokens, hasZero, at, env);
        if a.result.None? then Outcome(None, a.exit)
        else match UnaryExpr(name, a.result.value.expr)
          case None => Outcome(None, a.exit)
          case Some(e) => Outcome(Some(Compiled(e, ReturnType(signatures, name, a.result.value.ty, Missing, Missing))), a.exit)
    }

    /** `getLengthFunction` on states: the operand, compiled as required, wrapped in an integer character length. */
    ghost function CompileLength(arguments: seq<Argument>, at: Entry, env: Env): (o: Outcome)
      requires |arguments| == 1
      decreases arguments, 0
      ensures Extends(at, o.exit, env.inSubquery) && o.exit.context == at.context
      ensures RequiredSince(at.log, o.exit.log)
    {
      var a := Compile(arguments[0].tokens, false, at, env);
      if a.result.None? then Outcome(None, a.exit)
      else Outcome(Some(Compiled(CharacterLength(a.result.value.expr), Typed(Types.Integer))), a.exit)
    }

    /**
     * `getBinaryFunction` on states: the first operand is compiled, then the
     * second in the state the first left; the name selects the expression over
     * them and the overload table the type.
     */
    ghost function CompileBinary(name: string, arguments: seq<Argument>, hasZero: bool, at: Entry, env: Env): (o: Outcome)
      requires |arguments| == 2
      decreases arguments, 1
      ensures Extends(at, o.exit, env.inSubquery) && o.exit.context == at.context
      ensures !hasZero ==> RequiredSince(at.log, o.exit.log)
    {
      var a := Compile(arguments[0].tokens, hasZero, at, env);
      if a.result.None? then Outcome(None, a.exit)
      else
        var b := Compile(arguments[1].tokens, hasZero, a.exit, env);
        if b.result.None? then Outcome(None, b.exit)
        else
          var x, y := a.result.value, b.result.value;
          match BinaryExpr(name, x.ty, x.expr, y.expr)
          case None => Outcome(None, b.exit)
          case Some(e) => Outcome(Some(Compiled(e, ReturnType(signatures, name, x.ty, y.ty, Missing))), b.exit)
    }

    /**
     * `getTernaryFunction` on states: `substring` goes to `CompileSubstring`;
     * any other name compiles the operands in order, stopping at the first
     * that fails, and then fails.
     */
    ghost function CompileTernary(name: string, arguments: seq<Argument>, hasZero: bool, at: Entry, env: Env): (o: Outcome)
      requires |arguments| == 3
      decreases arguments, 1
      ensures Extends(at, o.exit, env.inSubquery) && o.exit.context == at.context
      ensures !hasZero || name == "substring" ==> RequiredSince(at.log, o.exit.log)
    {
      if name == "substring" then CompileSubstring(arguments, at, env)
      else
        var a := Compile(arguments[0].tokens, hasZero, at, env);
        if a.result.None? then Outcome(None, a.exit)
        else
          var b := Compile(arguments[1].tokens, hasZero, a.exit, env);
          if b.result.None? then Outcome(None, b.exit)
          else Outcome(None, Compile(arguments[2].tokens, hasZero, b.exit, env).exit)
    }

    /**
     * `getSubstringFunction` on states: the string is compiled as required;
     * when begin and end each start with a parameter token, a begin use and an
     * end use are bound after it, as required, and the result is a string.
     */
    ghost function CompileSubstring(arguments: seq<Argument>, at: Entry, env: Env): (o: Outcome)
      requires |arguments| == 3
      decreases arguments, 0
      ensures Extends(at, o.exit, env.inSubquery) && o.exit.context == at.context
      ensures RequiredSince(at.log, o.exit.log)
    {
      var s := Compile(arguments[0].tokens, false, at, env);
      var begin, end := ScanParameter(arguments[1].tokens), ScanParameter(arguments[2].tokens);
      if s.result.None? || begin.None? || end.None? then Outcome(None, s.exit)
      else
        var bu, eu := SubstringBeginUse(begin.value, false), SubstringEndUse(begin.value, end.value, false);
        var log := s.exit.log;
        Outcome(Some(Compiled(Substring(s.result.value.expr, Expr.Parameter(env.bind(log, bu)), Expr.Parameter(env.bind(log + [bu], eu))),
                              Typed(Types.String))),
                s.exit.(log := log + [bu, eu]))
    }

    /**
     * The tokens that are neither joins nor functions: no token, a table or a
     * list fails and changes nothing; a value is what `getProperty` resolves
     * in the entry state, which it leaves as it is; a parameter binds exactly
     * one argument use with the caller's optionality and is the id the binder
     * hands out for it, failing when there is none.
     */
    lemma CompileLeaf(tokens: seq<Token>, hasZero: bool, at: Entry, env: Env)
      ensures var o := Compile(tokens, hasZero, at, env);
        && (|tokens| == 0 || tokens[0].Table? || tokens[0].List? ==> o.result.None? && o.exit == at)
        && (|tokens| > 0 && tokens[0].Value? ==>
              o.result == property(tokens[0].info, at.context, at.subqueryContext, at.contextJoin) && o.exit == at)
        && (|tokens| > 0 && tokens[0].Parameter? ==>
              var u := ArgumentUse(tokens[0].name, hasZero);
              && o.exit == at.(log := at.log + [u])
              && o.result == if env.bind(at.log, u).Some? then Some(Compiled(Expr.Parameter(env.bind(at.log, u)), Untyped)) else None)
    {
    }

    /** The operator name decides the expression and its type only: the state a binary compile leaves is the operands'. */
    lemma BinaryStateIgnoresName(name: string, other: string, arguments: seq<Argument>, hasZero: bool, at: Entry, env: Env)
      requires |arguments| == 2
      ensures CompileBinary(name, arguments, hasZero, at, env).exit == CompileBinary(other, arguments, hasZero, at, env).exit
      ensures name in BinaryNames && other in BinaryNames ==>
        CompileBinary(name, arguments, hasZero, at, env).result.Some? == CompileBinary(other, arguments, hasZero, at, env).result.Some?
    {
    }

    /** `notEqual` compiles to the negation of what `equal` compiles to, leaving the same state. */
    lemma NotEqualNegatesEqual(arguments: seq<Argument>, hasZero: bool, at: Entry, env: Env)
      requires |arguments| == 2
      ensures var ne, eq := CompileBinary("notEqual", arguments, hasZero, at, env), CompileBinary("equal", arguments, hasZero, at, env);
        && ne.exit == eq.exit
        && ne.result.Some? == eq.result.Some?
        && (ne.result.Some? ==> ne.result.value.expr == Not(eq.result.value.expr))
    {
    }

    /** `length` and `substring` compile their operands as required whatever the caller's optionality. */
    lemma RequiredWhateverOptionality(arguments: seq<Argument>, at: Entry, env: Env)
      ensures |arguments| == 1 ==> CompileFunction("length", arguments, true, at, env) == CompileFunction("length", arguments, false, at, env)
      ensures |arguments| == 3 ==> CompileFunction("substring", arguments, true, at, env) == CompileFunction("substring", arguments, false, at, env)
    {
    }

    /**
     * A run of joins ahead of an expression moves the context only for that
     * expression: the compile puts the context back, and whether it succeeds
     * or fails, each join's edge is on the receiving statement's log.
     */
    lemma {:induction false} JoinsStayLogged(tokens: seq<Token>, k: nat, hasZero: bool, at: Entry, env: Env)
      requires LeadingJoins(tokens, k)
      ensures var o := Compile(tokens, hasZero, at, env);
        && o.exit.context == at.context
        && if env.inSubquery then |at.subqueryJoins| + k <= |o.exit.subqueryJoins|
           else |at.joins| + k <= |o.exit.joins|
      decreases k
    {
      if k > 0 {
        var moved := Joined(at, tokens[0].join, env);
        assert LeadingJoins(tokens[1..], k - 1);
        JoinsStayLogged(tokens[1..], k - 1, hasZero, moved, env);
      }
    }

    // -------------------------------------------------------------------------
    // The expression compiler
    // -------------------------------------------------------------------------

    /** `getParameter`: binds the parameter; a missing id fails. The type is left unset. */
    method GetParameter(name: string, hasZero: bool) returns (r: Option<Compiled>)
      requires Valid()
      modifies input
      ensures Grows() && Valid()
      ensures input.uses == old(input.uses) + [ArgumentUse(name, hasZero)]
      ensures var id := input.bind(old(input.uses), ArgumentUse(name, hasZero));
        r == if id.Some? then Some(Compiled(Expr.Parameter(id), Untyped)) else None
    {
      var id := input.Request(ArgumentUse(name, hasZero));
      if id.None? {
        return None;
      }
      r := Some(Compiled(Expr.Parameter(id), Untyped));
    }

    /**
     * `getExpression`: dispatches on the first token. A join is handled under a
     * rollback point, after which the rest is compiled and the point is either
     * dropped or rolled back to; parameters, values and functions have their own
     * compilers; anything else (also an empty list) fails. The context is
     * always restored on exit.
     */
    method GetExpression(tokens: seq<Token>, hasZero: bool) returns (r: Option<Compiled>)
      requires Valid()
      modifies this, input, mysql, subquery
      decreases tokens, 3
      ensures Grows() && Valid()
      ensures var o := Compile(tokens, hasZero, old(At()), Environment()); r == o.result && At() == o.exit
      ensures context == old(context)
      ensures subquery == null ==> subqueryContext == old(subqueryContext)
      ensures !hasZero ==> RequiredSince(old(input.uses), input.uses)
      ensures |tokens| > 0 && tokens[0].Join? && r.None? ==> contextJoin == old(contextJoin)
    {
      var saved := context;
      r := None;
      if |tokens| == 0 {
        context := saved;
        return;
      }
      match tokens[0] {
      case Join(j) => {
        r := GetJoinExpression(j, tokens, hasZero);
      }
      case Parameter(name) => {
        r := GetParameter(name, hasZero);
      }
      case Value(info) => {
        r := property(info, context, subqueryContext, contextJoin);
      }
      case Function(name, arguments) => {
        r := GetFunction(name, arguments, hasZero);
      }
      case Table(_, _, _) => {
      }
      case List(_) => {
      }
      }
      context := saved;
    }

    /**
     * The join case of `getExpression`: the join is handled under a rollback
     * point, the rest of the tokens is compiled, and the point is dropped on
     * success and rolled back to on failure.
     */
    method GetJoinExpression(j: JoinInfo, tokens: seq<Token>, hasZero: bool) returns (r: Option<Compiled>)
      requires Valid() && |tokens| > 0 && tokens[0] == Join(j)
      modifies this, input, mysql, subquery
      decreases tokens, 2
      ensures Grows() && Valid()
      ensures var o := CompileJoin(tokens, hasZero, old(At()), Environment()); r == o.result && At() == o.exit
      ensures subquery == null ==> subqueryContext == old(subqueryContext)
      ensures !hasZero ==> RequiredSince(old(input.uses), input.uses)
      ensures r.None? ==> context == old(context) && contextJoin == old(contextJoin)
      ensures subquery == null ==>
        |old(mysql.joins)| < |mysql.joins| && mysql.joins[|old(mysql.joins)|] == Edge(old(context), j.tableB, j.expression)
      ensures subquery != null ==>
        |old(subquery.joins)| < |subquery.joins| && subquery.joins[|old(subquery.joins)|] == Edge(old(subqueryContext), j.tableB, j.expression)
    {
      SetRollbackPoint();
      HandleJoin(j);
      var inner := GetExpression(tokens[1..], hasZero);
      var ok := ConditionallyRollback(inner.Some?);
      r := if ok then inner else None;
    }

    /** `getFunction`: one, two or three arguments select the unary, binary or ternary compiler. */
    method GetFunction(name: string, arguments: seq<Argument>, hasZero: bool) returns (r: Option<Compiled>)
      requires Valid()
      modifies this, input, mysql, subquery
      decreases arguments, 2
      ensures Grows() && Valid()
      ensures var o := CompileFunction(name, arguments, hasZero, old(At()), Environment()); r == o.result && At() == o.exit
      ensures context == old(context)
      ensures subquery == null ==> subqueryContext == old(subqueryContext)
      ensures !hasZero ==> RequiredSince(old(input.uses), input.uses)
      ensures |arguments| !in {1, 2, 3} ==> r.None? && input.uses == old(input.uses) && mysql.joins == old(mysql.joins)
    {
      if |arguments| == 1 {
        r := GetUnaryFunction(name, arguments, hasZero);
      } else if |arguments| == 2 {
        r := GetBinaryFunction(name, arguments, hasZero);
      } else if |arguments| == 3 {
        r := GetTernaryFunction(name, arguments, hasZero);
      } else {
        r := None;
      }
    }

    /**
     * `getUnaryFunction`: `length` has its own compiler; otherwise the operand is
     * compiled, the type is looked up, and `uppercase`, `lowercase` and `not`
     * build their expression while every other name fails.
     */
    method GetUnaryFunction(name: string, arguments: seq<Argument>, hasZero: bool) returns (r: Option<Compiled>)
      requires Valid() && |arguments| == 1
      modifies this, input, mysql, subquery
      decreases arguments, 1
      ensures Grows() && Valid()
      ensures var o := CompileUnary(name, arguments, hasZero, old(At()), Environment()); r == o.result && At() == o.exit
      ensures context == old(context)
      ensures subquery == null ==> subqueryContext == old(subqueryContext)
      ensures !hasZero || name == "length" ==> RequiredSince(old(input.uses), input.uses)
      ensures name != "length" && name !in UnaryNames ==> r.None?
    {
      if name == "length" {
        r := GetLengthFunction(arguments);
        return;
      }
      var child := GetExpression(arguments[0].tokens, hasZero);
      if child.None? {
        return None;
      }
      var ty := ReturnType(signatures, name, child.value.ty, Missing, Missing);
      var e := UnaryExpr(name, child.value.expr);
      if e.None? {
        return None;
      }
      r := Some(Compiled(e.value, ty));
    }

    /** `getLengthFunction`: the operand is compiled as required; the result is an integer character length. */
    method GetLengthFunction(arguments: seq<Argument>) returns (r: Option<Compiled>)
      requires Valid() && |arguments| == 1
      modifies this, input, mysql, subquery
      decreases arguments, 0
      ensures Grows() && Valid()
      ensures var o := CompileLength(arguments, old(At()), Environment()); r == o.result && At() == o.exit
      ensures context == old(context)
      ensures subquery == null ==> subqueryContext == old(subqueryContext)
      ensures RequiredSince(old(input.uses), input.uses)
    {
      var child := GetExpression(arguments[0].tokens, false);
      if child.None? {
        return None;
      }
      r := Some(Compiled(CharacterLength(child.value.expr), Typed(Types.Integer)));
    }

    /**
     * `getBinaryFunction`: both operands are compiled (the second only when the
     * first succeeds), the type is looked up, and the name selects the expression.
     */
    method GetBinaryFunction(name: string, arguments: seq<Argument>, hasZero: bool) returns (r: Option<Compiled>)
      requires Valid() && |arguments| == 2
      modifies this, input, mysql, subquery
      decreases arguments, 1
      ensures Grows() && Valid()
      ensures var o := CompileBinary(name, arguments, hasZero, old(At()), Environment()); r == o.result && At() == o.exit
      ensures context == old(context)
      ensures subquery == null ==> subqueryContext == old(subqueryContext)
      ensures !hasZero ==> RequiredSince(old(input.uses), input.uses)
      ensures name !in BinaryNames ==> r.None?
    {
      var a := GetExpression(arguments[0].tokens, hasZero);
      if a.None? {
        return None;
      }
      var b := GetExpression(arguments[1].tokens, hasZero);
      if b.None? {
        return None;
      }
      var ty := ReturnType(signatures, name, a.value.ty, b.value.ty, Missing);
      var e := BinaryExpr(name, a.value.ty, a.value.expr, b.value.expr);
      if e.None? {
        return None;
      }
      r := Some(Compiled(e.value, ty));
    }

    /**
     * `getTernaryFunction`: `substring` has its own compiler; for every other
     * name the three operands are compiled and the type looked up, and then the
     * compile fails.
     */
    method GetTernaryFunction(name: string, arguments: seq<Argument>, hasZero: bool) returns (r: Option<Compiled>)
      requires Valid() && |arguments| == 3
      modifies this, input, mysql, subquery
      decreases arguments, 1
      ensures Grows() && Valid()
      ensures var o := CompileTernary(name, arguments, hasZero, old(At()), Environment()); r == o.result && At() == o.exit
      ensures context == old(context)
      ensures subquery == null ==> subqueryContext == old(subqueryContext)
      ensures !hasZero || name == "substring" ==> RequiredSince(old(input.uses), input.uses)
      ensures name != "substring" ==> r.None?
    {
      if name == "substring" {
        r := GetSubstringFunction(arguments);
        return;
      }
      var a := GetExpression(arguments[0].tokens, hasZero);
      if a.None? {
        return None;
      }
      var b := GetExpression(arguments[1].tokens, hasZero);
      if b.None? {
        return None;
      }
      var c := GetExpression(arguments[2].tokens, hasZero);
      if c.None? {
        return None;
      }
      var _ := ReturnType(signatures, name, a.value.ty, b.value.ty, c.value.ty);
      r := None;
    }

    /**
     * `getSubstringFunction`: the string is compiled as required; begin and end
     * must each start with a parameter token, and both are bound as required
     * whatever `$hasZero` says; the result is a string.
     */
    method GetSubstringFunction(arguments: seq<Argument>) returns (r: Option<Compiled>)
      requires Valid() && |arguments| == 3
      modifies this, input, mysql, subquery
      decreases arguments, 0
      ensures Grows() && Valid()
      ensures var o := CompileSubstring(arguments, old(At()), Environment()); r == o.result && At() == o.exit
      ensures context == old(context)
      ensures subquery == null ==> subqueryContext == old(subqueryContext)
      ensures RequiredSince(old(input.uses), input.uses)
      ensures ScanParameter(arguments[1].tokens).None? || ScanParameter(arguments[2].tokens).None? ==> r.None?
    {
      var str := GetExpression(arguments[0].tokens, false);
      if str.None? {
        return None;
      }
      var begin := ScanParameter(arguments[1].tokens);
      var end := ScanParameter(arguments[2].tokens);
      if begin.None? || end.None? {
        return None;
      }
      var beginId := input.Request(SubstringBeginUse(begin.value, false));
      var endId := input.Request(SubstringEndUse(begin.value, end.value, false));
      r := Some(Compiled(Substring(str.value.expr, Expr.Parameter(beginId), Expr.Parameter(endId)), Typed(Types.String)));
    }

    /**
     * `getOptionalFilterFunction`: a leading `filter` is compiled (its first
     * argument, as required) into the statement's WHERE clause and shifted off
     * the request. A request that does not start with a filter is left alone;
     * a filter without arguments or with an expression that does not compile throws.
     */
    method GetOptionalFilterFunction() returns (r: Result<bool, CompilerError>)
      requires Valid()
      modifies this, input, mysql, subquery
      ensures Valid()
      ensures input == old(input) && mysql == old(mysql) && subquery == old(subquery) && rollbackPoint == old(rollbackPoint)
      ensures context == old(context)
      ensures !(|old(request)| > 0 && IsFunction(old(request)[0], "filter")) ==>
        r == Ok(false) && request == old(request) && mysql.where == old(mysql.where) && At() == old(At())
      ensures |old(request)| > 0 && IsFunction(old(request)[0], "filter") && |old(request)[0].arguments| == 0 ==>
        r == Err(NoFilterArguments) && request == old(request) && mysql.where == old(mysql.where) && At() == old(At())
      ensures |old(request)| > 0 && IsFunction(old(request)[0], "filter") && |old(request)[0].arguments| > 0 ==>
        var o := Compile(old(request)[0].arguments[0].tokens, false, old(At()), Environment());
        && At() == o.exit
        && r == (if o.result.Some? then Ok(true) else Err(BadFilterExpression))
        && request == (if o.result.Some? then old(request)[1..] else old(request))
        && mysql.where == (if o.result.Some? then Some(o.result.value.expr) else old(mysql.where))
      ensures r == Ok(true) ==>
        |old(request)| > 0 && IsFunction(old(request)[0], "filter") && |old(request)[0].arguments| > 0 && request == old(request)[1..]
      ensures r.Err? ==> request == old(request) && mysql.where == old(mysql.where)
      ensures r.Ok? || r == Err(NoFilterArguments) || r == Err(BadFilterExpression)
      ensures RequiredSince(old(input.uses), input.uses)
    {
      if |request| == 0 {
        return Ok(false);
      }
      var scan := ScanFunction(request[0]);
      if scan.None? || scan.value.name != "filter" {
        return Ok(false);
      }
      if |scan.value.arguments| == 0 {
        return Err(NoFilterArguments);
      }
      var where := GetExpression(scan.value.arguments[0].tokens, false);
      if where.None? {
        return Err(BadFilterExpression);
      }
      mysql.SetWhere(where.value.expr);
      request := request[1..];
      r := Ok(true);
    }
  }
}
