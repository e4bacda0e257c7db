/** What the branch pruner promises, proved about `Pruner`. */
module PrunerProperties {
  import opened Wrappers
  import opened Ast
  import opened Pruner

  // ---- The rule for one `if` node, once its children are rewritten ----

  /** A taken test: the `else` branch is dropped and the test becomes `1`;
      the rewritten body is kept. */
  lemma PruneIfTaken(o: Context, test: Expr, body: seq<Stmt>, orelse: seq<Stmt>, body': seq<Stmt>, orelse': seq<Stmt>)
    requires PruneBlock(o, body) == Ok(body') && PruneBlock(o, orelse) == Ok(orelse')
    requires Evaluate(o, test) == Truthy
    ensures PruneStmt(o, If(test, body, orelse)) == Ok(If(Num(1), body', []))
  {
  }

  /** A test that is not taken, with no `else`: the node becomes `if 1: pass`. */
  lemma PruneIfNotTakenNoElse(o: Context, test: Expr, body: seq<Stmt>)
    requires PruneBlock(o, body).Ok?
    requires Evaluate(o, test) == Falsy
    ensures PruneStmt(o, If(test, body, [])) == Ok(If(Num(1), [Pass], []))
  {
  }

  /** A test that is not taken, with an `else`: the rewritten `else` becomes
      the body of `if 1`. */
  lemma PruneIfNotTaken(o: Context, test: Expr, body: seq<Stmt>, orelse: seq<Stmt>, orelse': seq<Stmt>)
    requires PruneBlock(o, body).Ok? && PruneBlock(o, orelse) == Ok(orelse')
    requires orelse != [] && Evaluate(o, test) == Falsy
    ensures PruneStmt(o, If(test, body, orelse)) == Ok(If(Num(1), orelse', []))
  {
  }

  /** A test whose evaluation raises: the exception is swallowed and the node
      keeps its test and both branches, as its children were rewritten. */
  lemma PruneIfUnknown(o: Context, test: Expr, body: seq<Stmt>, orelse: seq<Stmt>, body': seq<Stmt>, orelse': seq<Stmt>)
    requires PruneBlock(o, body) == Ok(body') && PruneBlock(o, orelse) == Ok(orelse')
    requires Evaluate(o, test) == EvalRaises
    ensures PruneStmt(o, If(test, body, orelse)) == Ok(If(test, body', orelse'))
  {
  }

  /** A test that `compile` refuses, or whose `eval` raises something that
      is not an `Exception`: it escapes, unless visiting a child raised an
      escaping exception first. */
  lemma PruneIfEvalEscapes(o: Context, test: Expr, body: seq<Stmt>, orelse: seq<Stmt>)
    requires PruneBlock(o, body).Ok? && PruneBlock(o, orelse).Ok?
    requires Evaluate(o, test) == EvalEscapes
    ensures PruneStmt(o, If(test, body, orelse)) == Err(UncaughtEvalError(test))
  {
  }

  /** A test that `compile` refuses escapes whether or not the locals can
      be copied, since `compile` runs before the `try`. */
  lemma PruneIfCompileRefused(o: Context, test: Expr, body: seq<Stmt>, orelse: seq<Stmt>)
    requires PruneBlock(o, body).Ok? && PruneBlock(o, orelse).Ok?
    requires !Compiles(o, test)
    ensures PruneStmt(o, If(test, body, orelse)) == Err(UncaughtEvalError(test))
  {
  }

  /** A test whose value cannot be converted to `bool`: that exception
      escapes, unless visiting a child raised one first. */
  lemma PruneIfBoolRaises(o: Context, test: Expr, body: seq<Stmt>, orelse: seq<Stmt>)
    requires PruneBlock(o, body).Ok? && PruneBlock(o, orelse).Ok?
    requires Evaluate(o, test) == BoolRaises
    ensures PruneStmt(o, If(test, body, orelse)) == Err(TruthValueError(test))
  {
  }

  /** One node in, one node out: an `if` stays an `if`; any other compound
      statement keeps its kind, its header and the number and lengths of its
      statement lists; a simple statement is unchanged. */
  predicate Corresponds(s: Stmt, t: Stmt) {
    match s
    case If(_, _, _) => t.If?
    case Compound(kind, header, blocks) =>
      t.Compound? && t.kind == kind && t.header == header && |t.blocks| == |blocks| &&
      forall i :: 0 <= i < |blocks| ==> |t.blocks[i].stmts| == |blocks[i].stmts|
    case _ => t == s
  }

  /** Every statement is replaced by exactly one statement of the same
      shape, so every statement list keeps its length. */
  lemma {:induction false} PruneStmtShape(o: Context, s: Stmt)
    requires PruneStmt(o, s).Ok?
    ensures Corresponds(s, PruneStmt(o, s).value)
    decreases s
  {
    if s.Compound? {
      PruneBlocksShape(o, s.blocks);
    }
  }

  lemma {:induction false} PruneBlockShape(o: Context, ss: seq<Stmt>)
    requires PruneBlock(o, ss).Ok?
    ensures |PruneBlock(o, ss).value| == |ss|
    ensures forall i :: 0 <= i < |ss| ==> Corresponds(ss[i], PruneBlock(o, ss).value[i])
    decreases ss
  {
    if ss != [] {
      PruneStmtShape(o, ss[0]);
      PruneBlockShape(o, ss[1..]);
      var r := PruneBlock(o, ss).value;
      forall i | 1 <= i < |ss| ensures Corresponds(ss[i], r[i]) {
        assert ss[i] == ss[1..][i - 1] && r[i] == PruneBlock(o, ss[1..]).value[i - 1];
      }
    }
  }

  lemma {:induction false} PruneBlocksShape(o: Context, bs: seq<Block>)
    requires PruneBlocks(o, bs).Ok?
    ensures |PruneBlocks(o, bs).value| == |bs|
    ensures forall i :: 0 <= i < |bs| ==> |PruneBlocks(o, bs).value[i].stmts| == |bs[i].stmts|
    decreases bs
  {
    if bs != [] {
      PruneBlockShape(o, bs[0].stmts);
      PruneBlocksShape(o, bs[1..]);
      var r := PruneBlocks(o, bs).value;
      forall i | 1 <= i < |bs| ensures |r[i].stmts| == |bs[i].stmts| {
        assert bs[i] == bs[1..][i - 1] && r[i] == PruneBlocks(o, bs[1..]).value[i - 1];
      }
    }
  }

  // ---- Which exception escapes: post-order evaluation ----

  /** The first test in the list whose exception escapes. */
  function FirstRaising(o: Context, tests: seq<Expr>): (r: Option<Expr>)
    ensures r.None? <==> forall e :: e in tests ==> !Escapes(Evaluate(o, e))
    ensures r.Some? ==> r.value in tests && Escapes(Evaluate(o, r.value))
  {
    if tests == [] then None
    else if Escapes(Evaluate(o, tests[0])) then Some(tests[0])
    else FirstRaising(o, tests[1..])
  }

  lemma {:induction false} FirstRaisingAppend(o: Context, a: seq<Expr>, b: seq<Expr>)
    ensures FirstRaising(o, a + b) == if FirstRaising(o, a).Some? then FirstRaising(o, a) else FirstRaising(o, b)
  {
    if a != [] {
      assert (a + b)[0] == a[0];
      assert (a + b)[1..] == a[1..] + b;
      FirstRaisingAppend(o, a[1..], b);
    } else {
      assert a + b == b;
    }
  }

  /** The test named by the exception that escaped, if one did. */
  function Raised<T>(r: Result<T, Error>): Option<Expr> {
    if r.Ok? then None else Some(r.error.test)
  }

  /** The rewrite of a statement fails exactly when some test in it raises an
      escaping exception, and the exception names the first such test in
      post-order: children are visited, in field order, before the node's own
      test is evaluated. */
  lemma {:induction false} PruneStmtRaises(o: Context, s: Stmt)
    ensures Raised(PruneStmt(o, s)) == FirstRaising(o, StmtTests(s))
    decreases s
  {
    match s
    case If(test, body, orelse) =>
      PruneBlockRaises(o, body);
      PruneBlockRaises(o, orelse);
      FirstRaisingAppend(o, BlockTests(body), BlockTests(orelse));
      FirstRaisingAppend(o, BlockTests(body) + BlockTests(orelse), [test]);
    case Compound(_, _, blocks) =>
      PruneBlocksRaises(o, blocks);
    case _ =>
  }

  lemma {:induction false} PruneBlockRaises(o: Context, ss: seq<Stmt>)
    ensures Raised(PruneBlock(o, ss)) == FirstRaising(o, BlockTests(ss))
    decreases ss
  {
    if ss != [] {
      PruneStmtRaises(o, ss[0]);
      PruneBlockRaises(o, ss[1..]);
      FirstRaisingAppend(o, StmtTests(ss[0]), BlockTests(ss[1..]));
    }
  }

  lemma {:induction false} PruneBlocksRaises(o: Context, bs: seq<Block>)
    ensures Raised(PruneBlocks(o, bs)) == FirstRaising(o, BlocksTests(bs))
    decreases bs
  {
    if bs != [] {
      PruneBlockRaises(o, bs[0].stmts);
      PruneBlocksRaises(o, bs[1..]);
      FirstRaisingAppend(o, BlockTests(bs[0].stmts), BlocksTests(bs[1..]));
    }
  }

  /** An `Exception` raised by `eval` never escapes: the rewrite of a module
      succeeds exactly when no test in it raises anything else, in `eval` or
      in `bool()`. */
  lemma SpecializeAstSucceeds(o: Context, tree: Module)
    ensures SpecializeAst(o, tree).Ok? <==> forall e :: e in BlockTests(tree.body) ==> !Escapes(Evaluate(o, e))
  {
    PruneBlockRaises(o, tree.body);
  }

  // ---- Idempotence ----

  /** The state the pruner leaves a tree in: every `if` has the test `1` and
      no `else`, or a test whose evaluation raises. */
  predicate SettledStmt(o: Context, s: Stmt)
    decreases s
  {
    match s
    case If(test, body, orelse) =>
      ((test == Num(1) && orelse == []) || Evaluate(o, test) == EvalRaises) &&
      SettledBlock(o, body) && SettledBlock(o, orelse)
    case Compound(_, _, blocks) => SettledBlocks(o, blocks)
    case _ => true
  }

  predicate SettledBlock(o: Context, ss: seq<Stmt>)
    decreases ss
  {
    forall i :: 0 <= i < |ss| ==> SettledStmt(o, ss[i])
  }

  predicate SettledBlocks(o: Context, bs: seq<Block>)
    decreases bs
  {
    forall i :: 0 <= i < |bs| ==> SettledBlock(o, bs[i].stmts)
  }

  /** After one pass every `if` whose test the context decides reads
      `if 1:` with no `else`. */
  lemma {:induction false} PruneStmtSettles(o: Context, s: Stmt)
    requires PruneStmt(o, s).Ok?
    ensures SettledStmt(o, PruneStmt(o, s).value)
    decreases s
  {
    match s
    case If(test, body, orelse) =>
      PruneBlockSettles(o, body);
      PruneBlockSettles(o, orelse);
    case Compound(_, _, blocks) =>
      PruneBlocksSettles(o, blocks);
    case _ =>
  }

  lemma {:induction false} PruneBlockSettles(o: Context, ss: seq<Stmt>)
    requires PruneBlock(o, ss).Ok?
    ensures SettledBlock(o, PruneBlock(o, ss).value)
    decreases ss
  {
    if ss != [] {
      PruneStmtSettles(o, ss[0]);
      PruneBlockSettles(o, ss[1..]);
      var r := PruneBlock(o, ss).value;
      assert r == [PruneStmt(o, ss[0]).value] + PruneBlock(o, ss[1..]).value;
      forall i | 0 <= i < |r| ensures SettledStmt(o, r[i]) {
        if i > 0 {
          assert r[i] == PruneBlock(o, ss[1..]).value[i - 1];
        }
      }
    }
  }

  lemma {:induction false} PruneBlocksSettles(o: Context, bs: seq<Block>)
    requires PruneBlocks(o, bs).Ok?
    ensures SettledBlocks(o, PruneBlocks(o, bs).value)
    decreases bs
  {
    if bs != [] {
      PruneBlockSettles(o, bs[0].stmts);
      PruneBlocksSettles(o, bs[1..]);
      var r := PruneBlocks(o, bs).value;
      assert r == [Block(PruneBlock(o, bs[0].stmts).value)] + PruneBlocks(o, bs[1..]).value;
      forall i | 0 <= i < |r| ensures SettledBlock(o, r[i].stmts) {
        if i > 0 {
          assert r[i] == PruneBlocks(o, bs[1..]).value[i - 1];
        }
      }
    }
  }

  /** A settled tree is left exactly as it is: `1` is always taken, and a
      test that raised raises again. */
  lemma {:induction false} SettledStmtIsFixed(o: Context, s: Stmt)
    requires SettledStmt(o, s)
    ensures PruneStmt(o, s) == Ok(s)
    decreases s
  {
    match s
    case If(test, body, orelse) =>
      SettledBlockIsFixed(o, body);
      SettledBlockIsFixed(o, orelse);
    case Compound(_, _, blocks) =>
      SettledBlocksIsFixed(o, blocks);
    case _ =>
  }

  lemma {:induction false} SettledBlockIsFixed(o: Context, ss: seq<Stmt>)
    requires SettledBlock(o, ss)
    ensures PruneBlock(o, ss) == Ok(ss)
    decreases ss
  {
    if ss != [] {
      SettledStmtIsFixed(o, ss[0]);
      assert SettledBlock(o, ss[1..]) by {
        forall i | 0 <= i < |ss[1..]| ensures SettledStmt(o, ss[1..][i]) {
          assert ss[1..][i] == ss[i + 1];
        }
      }
      SettledBlockIsFixed(o, ss[1..]);
      assert [ss[0]] + ss[1..] == ss;
    }
  }

  lemma {:induction false} SettledBlocksIsFixed(o: Context, bs: seq<Block>)
    requires SettledBlocks(o, bs)
    ensures PruneBlocks(o, bs) == Ok(bs)
    decreases bs
  {
    if bs != [] {
      SettledBlockIsFixed(o, bs[0].stmts);
      assert SettledBlocks(o, bs[1..]) by {
        forall i | 0 <= i < |bs[1..]| ensures SettledBlock(o, bs[1..][i].stmts) {
          assert bs[1..][i] == bs[i + 1];
        }
      }
      SettledBlocksIsFixed(o, bs[1..]);
      assert [Block(bs[0].stmts)] + bs[1..] == bs;
    }
  }

  /** Pruning a tree a second time, in the same context, changes nothing. */
  lemma SpecializeAstIdempotent(o: Context, tree: Module)
    requires SpecializeAst(o, tree).Ok?
    ensures SpecializeAst(o, SpecializeAst(o, tree).value) == SpecializeAst(o, tree)
  {
    PruneBlockSettles(o, tree.body);
    SettledBlockIsFixed(o, PruneBlock(o, tree.body).value);
  }

  // ---- Nothing decided, nothing changed ----

  /** Where every test raises in `eval`, the tree is already settled. */
  lemma {:induction false} UndecidedStmtIsSettled(o: Context, s: Stmt)
    requires forall e :: e in StmtTests(s) ==> Evaluate(o, e) == EvalRaises
    ensures SettledStmt(o, s)
    decreases s
  {
    match s
    case If(test, body, orelse) =>
      UndecidedBlockIsSettled(o, body);
      UndecidedBlockIsSettled(o, orelse);
    case Compound(_, _, blocks) =>
      UndecidedBlocksIsSettled(o, blocks);
    case _ =>
  }

  lemma {:induction false} UndecidedBlockIsSettled(o: Context, ss: seq<Stmt>)
    requires forall e :: e in BlockTests(ss) ==> Evaluate(o, e) == EvalRaises
    ensures SettledBlock(o, ss)
    decreases ss
  {
    if ss != [] {
      UndecidedStmtIsSettled(o, ss[0]);
      UndecidedBlockIsSettled(o, ss[1..]);
      forall i | 1 <= i < |ss| ensures SettledStmt(o, ss[i]) {
        assert ss[i] == ss[1..][i - 1];
      }
    }
  }

  lemma {:induction false} UndecidedBlocksIsSettled(o: Context, bs: seq<Block>)
    requires forall e :: e in BlocksTests(bs) ==> Evaluate(o, e) == EvalRaises
    ensures SettledBlocks(o, bs)
    decreases bs
  {
    if bs != [] {
      UndecidedBlockIsSettled(o, bs[0].stmts);
      UndecidedBlocksIsSettled(o, bs[1..]);
      forall i | 1 <= i < |bs| ensures SettledBlock(o, bs[i].stmts) {
        assert bs[i] == bs[1..][i - 1];
      }
    }
  }

  /** A context in which no test can be evaluated leaves the tree unchanged. */
  lemma SpecializeAstUndecided(o: Context, tree: Module)
    requires forall e :: e in BlockTests(tree.body) ==> Evaluate(o, e) == EvalRaises
    ensures SpecializeAst(o, tree) == Ok(tree)
  {
    UndecidedBlockIsSettled(o, tree.body);
    SettledBlockIsFixed(o, tree.body);
  }

  /** Locals that cannot be deep-copied make the evaluation of every test
      that compiles raise inside the `try`, that of a literal test included,
      so when every test compiles no `if` is decided and the tree comes back
      unchanged. */
  lemma SpecializeAstUncopyable(o: Context, tree: Module)
    requires !o.copyable
    requires forall e :: e in BlockTests(tree.body) ==> Compiles(o, e)
    ensures SpecializeAst(o, tree) == Ok(tree)
  {
    SpecializeAstUndecided(o, tree);
  }

  // ---- One context, used at every depth ----

  /** Two contexts that agree on every test of a statement rewrite it alike:
      the rewrite of a node depends on the verdicts on its own tests and
      nothing else, in particular not on where the node stands or on what
      was decided about the `if` statements around it. */
  lemma {:induction false} PruneStmtLocal(o1: Context, o2: Context, s: Stmt)
    requires forall e :: e in StmtTests(s) ==> Evaluate(o1, e) == Evaluate(o2, e)
    ensures PruneStmt(o1, s) == PruneStmt(o2, s)
    decreases s
  {
    match s
    case If(test, body, orelse) =>
      PruneBlockLocal(o1, o2, body);
      PruneBlockLocal(o1, o2, orelse);
    case Compound(_, _, blocks) =>
      PruneBlocksLocal(o1, o2, blocks);
    case _ =>
  }

  lemma {:induction false} PruneBlockLocal(o1: Context, o2: Context, ss: seq<Stmt>)
    requires forall e :: e in BlockTests(ss) ==> Evaluate(o1, e) == Evaluate(o2, e)
    ensures PruneBlock(o1, ss) == PruneBlock(o2, ss)
    decreases ss
  {
    if ss != [] {
      PruneStmtLocal(o1, o2, ss[0]);
      PruneBlockLocal(o1, o2, ss[1..]);
    }
  }

  lemma {:induction false} PruneBlocksLocal(o1: Context, o2: Context, bs: seq<Block>)
    requires forall e :: e in BlocksTests(bs) ==> Evaluate(o1, e) == Evaluate(o2, e)
    ensures PruneBlocks(o1, bs) == PruneBlocks(o2, bs)
    decreases bs
  {
    if bs != [] {
      PruneBlockLocal(o1, o2, bs[0].stmts);
      PruneBlocksLocal(o1, o2, bs[1..]);
    }
  }

  // ---- An if/elif/else chain collapses to one arm ----

  /** The selected statements, under `depth` further levels of `if 1:`. */
  function Wrapped(depth: nat, ss: seq<Stmt>): Stmt {
    if depth == 0 then If(Num(1), ss, []) else If(Num(1), [Wrapped(depth - 1, ss)], [])
  }

  /** A statement list of one statement is rewritten as that statement is. */
  lemma PruneSingleton(o: Context, s: Stmt)
    ensures PruneBlock(o, [s]) == if PruneStmt(o, s).Ok? then Ok([PruneStmt(o, s).value]) else Err(PruneStmt(o, s).error)
  {
    assert [s][0] == s && [s][1..] == [];
    assert PruneBlock(o, []) == Ok([]);
    if PruneStmt(o, s).Ok? {
      assert [PruneStmt(o, s).value] + [] == [PruneStmt(o, s).value];
    }
  }

  /** The rewrite of a chain succeeds when no test in it and no arm fails. */
  lemma {:induction false} ElifChainOk(o: Context, arms: seq<(Expr, seq<Stmt>)>, orelse: seq<Stmt>)
    requires |arms| >= 1
    requires forall j :: 0 <= j < |arms| ==> !Escapes(Evaluate(o, arms[j].0)) && PruneBlock(o, arms[j].1).Ok?
    requires PruneBlock(o, orelse).Ok?
    ensures PruneStmt(o, ElifChain(arms, orelse)).Ok?
    decreases |arms|
  {
    if |arms| > 1 {
      assert forall j :: 0 <= j < |arms[1..]| ==> arms[1..][j] == arms[j + 1];
      ElifChainOk(o, arms[1..], orelse);
      PruneSingleton(o, ElifChain(arms[1..], orelse));
    }
  }

  /** A chain of several arms is an `if` whose `else` is the rest of the chain. */
  lemma ElifChainStep(o: Context, arms: seq<(Expr, seq<Stmt>)>, orelse: seq<Stmt>)
    requires |arms| > 1
    requires PruneBlock(o, arms[0].1).Ok? && PruneStmt(o, ElifChain(arms[1..], orelse)).Ok?
    ensures PruneStmt(o, ElifChain(arms, orelse)) ==
      VisitIf(o, arms[0].0, PruneBlock(o, arms[0].1).value, [PruneStmt(o, ElifChain(arms[1..], orelse)).value])
  {
    PruneSingleton(o, ElifChain(arms[1..], orelse));
  }

  /** A chain whose first test is true becomes its first arm. */
  lemma ElifChainFirstTaken(o: Context, arms: seq<(Expr, seq<Stmt>)>, orelse: seq<Stmt>)
    requires |arms| >= 1
    requires forall j :: 0 <= j < |arms| ==> !Escapes(Evaluate(o, arms[j].0)) && PruneBlock(o, arms[j].1).Ok?
    requires PruneBlock(o, orelse).Ok?
    requires Evaluate(o, arms[0].0) == Truthy
    ensures PruneStmt(o, ElifChain(arms, orelse)) == Ok(If(Num(1), PruneBlock(o, arms[0].1).value, []))
  {
    if |arms| > 1 {
      assert forall j :: 0 <= j < |arms[1..]| ==> arms[1..][j] == arms[j + 1];
      ElifChainOk(o, arms[1..], orelse);
      ElifChainStep(o, arms, orelse);
    }
  }

  /** A single arm whose test is false leaves the rewritten `else`, or `pass`. */
  lemma ElifChainLastNotTaken(o: Context, arms: seq<(Expr, seq<Stmt>)>, orelse: seq<Stmt>)
    requires |arms| == 1
    requires PruneBlock(o, arms[0].1).Ok? && PruneBlock(o, orelse).Ok?
    requires Evaluate(o, arms[0].0) == Falsy
    ensures PruneStmt(o, ElifChain(arms, orelse)) ==
      Ok(Wrapped(0, if orelse == [] then [Pass] else PruneBlock(o, orelse).value))
  {
  }

  /** A chain whose first test is false becomes `if 1:` around the rewritten
      rest of the chain. */
  lemma ElifChainFirstNotTaken(o: Context, arms: seq<(Expr, seq<Stmt>)>, orelse: seq<Stmt>, rest: Stmt)
    requires |arms| > 1
    requires PruneBlock(o, arms[0].1).Ok? && PruneStmt(o, ElifChain(arms[1..], orelse)) == Ok(rest)
    requires Evaluate(o, arms[0].0) == Falsy
    ensures PruneStmt(o, ElifChain(arms, orelse)) == Ok(If(Num(1), [rest], []))
  {
    ElifChainStep(o, arms, orelse);
  }

  /** The arms after the first, with what the recursion needs of them. */
  lemma ElifChainTail(o: Context, arms: seq<(Expr, seq<Stmt>)>, k: nat)
    requires |arms| > 1 && 0 < k <= |arms|
    requires forall j :: 0 <= j < |arms| ==> !Escapes(Evaluate(o, arms[j].0)) && PruneBlock(o, arms[j].1).Ok?
    requires forall j :: 0 <= j < k ==> Evaluate(o, arms[j].0) == Falsy
    requires k < |arms| ==> Evaluate(o, arms[k].0) == Truthy
    ensures var tail := arms[1..];
      (forall j :: 0 <= j < |tail| ==> !Escapes(Evaluate(o, tail[j].0)) && PruneBlock(o, tail[j].1).Ok?) &&
      (forall j :: 0 <= j < k - 1 ==> Evaluate(o, tail[j].0) == Falsy) &&
      (k - 1 < |tail| ==> Evaluate(o, tail[k - 1].0) == Truthy && tail[k - 1] == arms[k])
  {
    assert forall j :: 0 <= j < |arms[1..]| ==> arms[1..][j] == arms[j + 1];
  }

  /** When the context makes the tests of the first `k` arms false and that
      of arm `k` true, the chain becomes that arm's rewritten body, inside
      `k + 1` nested `if 1:` statements; when every test is false it becomes
      the rewritten `else` (or `pass` when there is none). The tests after
      the selected arm need not be decided. */
  lemma {:induction false} ElifChainCollapses(o: Context, arms: seq<(Expr, seq<Stmt>)>, orelse: seq<Stmt>, k: nat)
    requires |arms| >= 1 && k <= |arms|
    requires forall j :: 0 <= j < |arms| ==> !Escapes(Evaluate(o, arms[j].0)) && PruneBlock(o, arms[j].1).Ok?
    requires PruneBlock(o, orelse).Ok?
    requires forall j :: 0 <= j < k ==> Evaluate(o, arms[j].0) == Falsy
    requires k < |arms| ==> Evaluate(o, arms[k].0) == Truthy
    ensures k < |arms| ==>
      PruneStmt(o, ElifChain(arms, orelse)) == Ok(Wrapped(k, PruneBlock(o, arms[k].1).value))
    ensures k == |arms| ==>
      PruneStmt(o, ElifChain(arms, orelse)) == Ok(Wrapped(|arms| - 1, if orelse == [] then [Pass] else PruneBlock(o, orelse).value))
    decreases |arms|
  {
    if k == 0 {
      ElifChainFirstTaken(o, arms, orelse);
    } else if |arms| == 1 {
      ElifChainLastNotTaken(o, arms, orelse);
    } else {
      ElifChainTail(o, arms, k);
      ElifChainCollapses(o, arms[1..], orelse, k - 1);
      ElifChainFirstNotTaken(o, arms, orelse, PruneStmt(o, ElifChain(arms[1..], orelse)).value);
    }
  }
}
