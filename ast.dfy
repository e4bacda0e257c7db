/** The part of a Python 2 abstract syntax tree (module `ast`) that the branch
    pruner reads and rewrites. Expressions never contain statements, so an
    expression is only ever evaluated or kept, never rewritten. */
module Ast {

  /** The test of an `if`: an integer literal (`ast.Num`, which is also what
      the pruner writes as `1`), or any other expression, known by its text. */
  datatype Expr = Num(n: int) | Cond(source: string)

  /** The compound statements besides `if`. The transformer descends into
      their statement lists and changes nothing else about them. */
  datatype Kind = FunctionDef | ClassDef | For | While | With | TryExcept | TryFinally

  /** A statement. `Compound` keeps, in the order of the node's fields, every
      statement list of the node (a `for` has its body and its `else`; a
      `try`/`except` its body, one list per handler and its `else`); `header`
      stands for everything else in the node (target, iterable, name,
      arguments, handler types), which no rewrite touches. `Return` and
      `Simple` are the simple statements; `Pass` is kept apart because the
      pruner creates it. */
  datatype Stmt =
    | If(test: Expr, body: seq<Stmt>, orelse: seq<Stmt>)
    | Compound(kind: Kind, header: string, blocks: seq<Block>)
    | Pass
    | Return(value: string)
    | Simple(source: string)

  /** One statement list of a compound statement. */
  datatype Block = Block(stmts: seq<Stmt>)

  /** `ast.Module`, what `ast.parse` returns. */
  datatype Module = Module(body: seq<Stmt>)

  /** How the parser represents `if t0: b0 elif t1: b1 ... else: e`: each
      `elif` is a lone `If` in the `orelse` of the one before. */
  function ElifChain(arms: seq<(Expr, seq<Stmt>)>, orelse: seq<Stmt>): (s: Stmt)
    requires |arms| >= 1
    ensures s.If? && s.test == arms[0].0 && s.body == arms[0].1
    decreases |arms|
  {
    If(arms[0].0, arms[0].1, if |arms| == 1 then orelse else [ElifChain(arms[1..], orelse)])
  }

  /** The tests of the `if` statements in a statement, in the order the
      transformer evaluates them: every test of a node's children, in the
      order of its fields, before the node's own. */
  function StmtTests(s: Stmt): seq<Expr>
    decreases s
  {
    match s
    case If(test, body, orelse) => BlockTests(body) + BlockTests(orelse) + [test]
    case Compound(_, _, blocks) => BlocksTests(blocks)
    case _ => []
  }

  function BlockTests(ss: seq<Stmt>): seq<Expr>
    decreases ss
  {
    if ss == [] then [] else StmtTests(ss[0]) + BlockTests(ss[1..])
  }

  function BlocksTests(bs: seq<Block>): seq<Expr>
    decreases bs
  {
    if bs == [] then [] else BlockTests(bs[0].stmts) + BlocksTests(bs[1..])
  }
}
