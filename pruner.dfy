/** The branch pruner `_specialize_ast`: a `NodeTransformer` whose `visit_If`
    first rewrites the node's children (`generic_visit`) and then evaluates
    the node's test in one fixed context, keeping only the branch that the
    context selects and leaving the node as it is when evaluation raises. */
module Pruner {
  import opened Wrappers
  import opened Ast

  /** What happens when a test is evaluated in the fixed context: `eval`
      returns a value whose `bool()` is true, or false; `eval` raises an
      `Exception`; the test escapes before `except Exception` can catch it,
      either because `compile` refuses it outside the `try` (a `(yield)`
      test, a `SyntaxError`) or because `eval` raises something that is not
      an `Exception` (`SystemExit`, `KeyboardInterrupt`, `GeneratorExit`, or
      an instance of an old-style class); or `eval` returns a value whose
      conversion by `bool()` raises. */
  datatype Verdict = Truthy | Falsy | EvalRaises | EvalEscapes | BoolRaises

  /** The verdicts whose exception escapes `visit_If`. */
  predicate Escapes(v: Verdict) {
    v == EvalEscapes || v == BoolRaises
  }

  /** The fixed context (the globals and the locals given to the pruner).
      Every test is first compiled, before the `try`; `compiles` says
      whether `compile` accepts a test that is not a literal (a literal
      always compiles). Then every evaluation, of a literal too, makes its
      own `deepcopy` of the locals inside the `try`; `copyable` says whether
      that copy succeeds. When it does, `verdict` gives the verdict of
      `eval` and `bool()` on each test that is not a literal. The tests are
      assumed free of side effects, so the verdict depends on the test
      alone, wherever in the tree it stands. */
  datatype Context = Context(compiles: string -> bool, copyable: bool, verdict: string -> Verdict)

  /** Whether `compile` accepts the test. */
  predicate Compiles(o: Context, e: Expr) {
    e.Num? || o.compiles(e.source)
  }

  /** `branch_taken`: `True`, `False` or `'unknown'`. */
  datatype Branch = Taken | NotTaken | Unknown

  /** The exception that ends the whole rewrite, with the test that raised
      it: one from `compile` or `eval` that `except Exception` does not
      catch, or one from
      `bool(r)`, which is called in the `else` clause of the `try` and so is
      not caught at all. */
  datatype Error = UncaughtEvalError(test: Expr) | TruthValueError(test: Expr)

  /** The verdict on a test. A test that `compile` refuses escapes, whether
      or not the locals can be copied, since `compile` runs first and outside
      the `try`. When a test compiles but the locals cannot be copied, its
      evaluation raises inside the `try`, literals included. Otherwise an
      integer literal is evaluated here: its truth value is whether it is
      non-zero, so the literal `1` is then always taken. */
  function Evaluate(o: Context, e: Expr): (v: Verdict)
    ensures !Compiles(o, e) ==> v == EvalEscapes
    ensures Compiles(o, e) && !o.copyable ==> v == EvalRaises
    ensures o.copyable && e.Num? ==> v == Truthy || v == Falsy
    ensures o.copyable && e == Num(1) ==> v == Truthy
  {
    if !Compiles(o, e) then EvalEscapes
    else if !o.copyable then EvalRaises
    else
      match e
      case Num(n) => if n != 0 then Truthy else Falsy
      case Cond(source) => o.verdict(source)
  }

  /** Evaluating the test and deciding the branch: the branch is unknown
      exactly when `eval` raises an `Exception`, and the call fails, naming
      the test, exactly when the exception escapes. */
  function BranchTaken(o: Context, test: Expr): (r: Result<Branch, Error>)
    ensures r.Err? <==> Escapes(Evaluate(o, test))
    ensures r.Err? ==> r.error.test == test
    ensures r == Ok(Unknown) <==> Evaluate(o, test) == EvalRaises
  {
    match Evaluate(o, test)
    case Truthy => Ok(Taken)
    case Falsy => Ok(NotTaken)
    case EvalRaises => Ok(Unknown)
    case EvalEscapes => Err(UncaughtEvalError(test))
    case BoolRaises => Err(TruthValueError(test))
  }

  /** The rewrite of an `if` node whose children are already rewritten: a
      decided node becomes `if 1:` with no `else` over the branch that runs,
      and an undecided one is kept. */
  function Rewrite(test: Expr, body: seq<Stmt>, orelse: seq<Stmt>, b: Branch): (s: Stmt)
    ensures s.If?
    ensures b == Unknown ==> s == If(test, body, orelse)
    ensures b != Unknown ==> s.test == Num(1) && s.orelse == []
    ensures b == Taken ==> s.body == body
    ensures b == NotTaken && orelse == [] ==> s.body == [Pass]
    ensures b == NotTaken && orelse != [] ==> s.body == orelse
  {
    match b
    case Taken => If(Num(1), body, [])
    case NotTaken => if orelse == [] then If(Num(1), [Pass], []) else If(Num(1), orelse, [])
    case Unknown => If(test, body, orelse)
  }

  /** `visit_If` after its call of `generic_visit`: one `if` node comes back,
      unless the test's exception escapes. */
  function VisitIf(o: Context, test: Expr, body: seq<Stmt>, orelse: seq<Stmt>): (r: Result<Stmt, Error>)
    ensures r.Err? <==> Escapes(Evaluate(o, test))
    ensures r.Ok? ==> r.value.If?
  {
    var b :- BranchTaken(o, test);
    Ok(Rewrite(test, body, orelse, b))
  }

  /** Visiting a statement: the children first, in field order, then, for an
      `if`, `visit_If`; an `if` comes back as an `if` and any other statement
      as a statement of its own kind (see `PruneStmtShape`). */
  function PruneStmt(o: Context, s: Stmt): (r: Result<Stmt, Error>)
    ensures r.Ok? ==> (r.value.If? <==> s.If?) && (r.value.Compound? <==> s.Compound?)
    decreases s
  {
    match s
    case If(test, body, orelse) =>
      var body' :- PruneBlock(o, body);
      var orelse' :- PruneBlock(o, orelse);
      VisitIf(o, test, body', orelse')
    case Compound(kind, header, blocks) =>
      var blocks' :- PruneBlocks(o, blocks);
      Ok(Compound(kind, header, blocks'))
    case _ => Ok(s)
  }

  /** Visiting a statement list in order (see `PruneBlockShape`). */
  function PruneBlock(o: Context, ss: seq<Stmt>): (r: Result<seq<Stmt>, Error>)
    ensures r.Ok? ==> |r.value| == |ss|
    decreases ss
  {
    if ss == [] then Ok([])
    else
      var s' :- PruneStmt(o, ss[0]);
      var rest :- PruneBlock(o, ss[1..]);
      Ok([s'] + rest)
  }

  /** Visiting the statement lists of a compound statement in order. */
  function PruneBlocks(o: Context, bs: seq<Block>): (r: Result<seq<Block>, Error>)
    ensures r.Ok? ==> |r.value| == |bs|
    decreases bs
  {
    if bs == [] then Ok([])
    else
      var b' :- PruneBlock(o, bs[0].stmts);
      var rest :- PruneBlocks(o, bs[1..]);
      Ok([Block(b')] + rest)
  }

  /** `_specialize_ast(tree, _globals, _locals)`, the context given as `o`. */
  function SpecializeAst(o: Context, tree: Module): (r: Result<Module, Error>)
    ensures r.Ok? ==> |r.value.body| == |tree.body|
  {
    var body :- PruneBlock(o, tree.body);
    Ok(Module(body))
  }
}
