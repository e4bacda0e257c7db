/** A reference semantics for the code the pruner rewrites, used to state
    what pruning is for: a branch is dropped only when the context shows it
    cannot run, so a run whose tests agree with the context does the same in
    the original and in the pruned code. Loops, nested definitions and other
    compound statements have no semantics here. */
module Execution {
  import opened Wrappers
  import opened Ast
  import opened Pruner
  import opened PrunerProperties

  /** The truth value each test has when the function is called. */
  type Runtime = string -> bool

  function Holds(rt: Runtime, e: Expr): bool {
    match e
    case Num(n) => n != 0
    case Cond(source) => rt(source)
  }

  /** Code made of `if`, `pass`, `return` and simple statements only. */
  predicate StraightStmt(s: Stmt)
    decreases s
  {
    match s
    case If(_, body, orelse) => StraightBlock(body) && StraightBlock(orelse)
    case Compound(_, _, _) => false
    case _ => true
  }

  predicate StraightBlock(ss: seq<Stmt>)
    decreases ss
  {
    forall i :: 0 <= i < |ss| ==> StraightStmt(ss[i])
  }

  /** What a run does: the simple statements it executes, in order, and the
      value of the `return` that ends it, if one does. */
  datatype Run = Run(effects: seq<string>, returned: Option<string>)

  function ExecStmt(rt: Runtime, s: Stmt): Run
    requires StraightStmt(s)
    decreases s
  {
    match s
    case If(test, body, orelse) => if Holds(rt, test) then ExecBlock(rt, body) else ExecBlock(rt, orelse)
    case Pass => Run([], None)
    case Return(value) => Run([], Some(value))
    case Simple(source) => Run([source], None)
  }

  function ExecBlock(rt: Runtime, ss: seq<Stmt>): Run
    requires StraightBlock(ss)
    decreases ss
  {
    if ss == [] then Run([], None)
    else
      var first := ExecStmt(rt, ss[0]);
      if first.returned.Some? then first
      else
        var rest := ExecBlock(rt, ss[1..]);
        Run(first.effects + rest.effects, rest.returned)
  }

  /** The run-time truth values agree with every verdict the context gives. */
  predicate Consistent(o: Context, rt: Runtime, tests: seq<Expr>) {
    forall e :: e in tests ==>
      (Evaluate(o, e) == Truthy ==> Holds(rt, e)) && (Evaluate(o, e) == Falsy ==> !Holds(rt, e))
  }

  /** One `if` node, given that its branches' rewrites keep every run. */
  lemma PruneIfKeepsRun(o: Context, rt: Runtime, test: Expr, body: seq<Stmt>, orelse: seq<Stmt>, body': seq<Stmt>, orelse': seq<Stmt>)
    requires StraightBlock(body) && StraightBlock(orelse) && StraightBlock(body') && StraightBlock(orelse')
    requires PruneBlock(o, body) == Ok(body') && PruneBlock(o, orelse) == Ok(orelse')
    requires ExecBlock(rt, body') == ExecBlock(rt, body) && ExecBlock(rt, orelse') == ExecBlock(rt, orelse)
    requires !Escapes(Evaluate(o, test)) && Consistent(o, rt, [test])
    ensures PruneStmt(o, If(test, body, orelse)).Ok?
    ensures StraightStmt(PruneStmt(o, If(test, body, orelse)).value)
    ensures ExecStmt(rt, PruneStmt(o, If(test, body, orelse)).value) == ExecStmt(rt, If(test, body, orelse))
  {
    assert test in [test];
    var s := If(test, body, orelse);
    match Evaluate(o, test)
    case Truthy =>
      PruneIfTaken(o, test, body, orelse, body', orelse');
      assert ExecStmt(rt, s) == ExecBlock(rt, body);
    case Falsy =>
      assert ExecStmt(rt, s) == ExecBlock(rt, orelse);
      if orelse == [] {
        PruneIfNotTakenNoElse(o, test, body);
        assert StraightBlock([Pass]);
        assert ExecBlock(rt, [Pass]) == Run([] + [], None);
      } else {
        PruneIfNotTaken(o, test, body, orelse, orelse');
      }
    case EvalRaises =>
      PruneIfUnknown(o, test, body, orelse, body', orelse');
  }

  /** Pruning keeps code straight-line and, for a run consistent with the
      context, changes nothing about what the run does. */
  lemma {:induction false} PruneStmtKeepsRun(o: Context, rt: Runtime, s: Stmt)
    requires StraightStmt(s) && PruneStmt(o, s).Ok?
    requires Consistent(o, rt, StmtTests(s))
    ensures StraightStmt(PruneStmt(o, s).value)
    ensures ExecStmt(rt, PruneStmt(o, s).value) == ExecStmt(rt, s)
    decreases s
  {
    if s.If? {
      PruneBlockKeepsRun(o, rt, s.body);
      PruneBlockKeepsRun(o, rt, s.orelse);
      assert !Escapes(Evaluate(o, s.test));
      PruneIfKeepsRun(o, rt, s.test, s.body, s.orelse, PruneBlock(o, s.body).value, PruneBlock(o, s.orelse).value);
    }
  }

  lemma {:induction false} PruneBlockKeepsRun(o: Context, rt: Runtime, ss: seq<Stmt>)
    requires StraightBlock(ss) && PruneBlock(o, ss).Ok?
    requires Consistent(o, rt, BlockTests(ss))
    ensures StraightBlock(PruneBlock(o, ss).value)
    ensures ExecBlock(rt, PruneBlock(o, ss).value) == ExecBlock(rt, ss)
    decreases ss
  {
    if ss != [] {
      PruneStmtKeepsRun(o, rt, ss[0]);
      assert StraightBlock(ss[1..]) by {
        assert forall i :: 0 <= i < |ss[1..]| ==> ss[1..][i] == ss[i + 1];
      }
      PruneBlockKeepsRun(o, rt, ss[1..]);
      var r := PruneBlock(o, ss).value;
      assert r[0] == PruneStmt(o, ss[0]).value && r[1..] == PruneBlock(o, ss[1..]).value;
    }
  }
}
