/** The pruning outcomes that the repository's test suite observes, each
    for every context that gives the verdicts the test's bindings give. */
module Scenarios {
  import opened Wrappers
  import opened Ast
  import opened Pruner
  import opened PrunerProperties
  import opened Execution
  import opened Binder

  /** The module that `ast.parse` makes of one function definition. */
  function Def(header: string, body: seq<Stmt>): Module {
    Module([Compound(FunctionDef, header, [Block(body)])])
  }

  // ---- Statement lists are rewritten statement by statement ----

  lemma PruneTwo(o: Context, a: Stmt, b: Stmt)
    requires PruneStmt(o, a).Ok? && PruneStmt(o, b).Ok?
    ensures PruneBlock(o, [a, b]) == Ok([PruneStmt(o, a).value, PruneStmt(o, b).value])
  {
    assert [a, b][0] == a && [a, b][1..] == [b];
    PruneSingleton(o, b);
    assert [PruneStmt(o, a).value] + [PruneStmt(o, b).value] == [PruneStmt(o, a).value, PruneStmt(o, b).value];
  }

  lemma PruneThree(o: Context, a: Stmt, b: Stmt, c: Stmt)
    requires PruneStmt(o, a).Ok? && PruneStmt(o, b).Ok? && PruneStmt(o, c).Ok?
    ensures PruneBlock(o, [a, b, c]) == Ok([PruneStmt(o, a).value, PruneStmt(o, b).value, PruneStmt(o, c).value])
  {
    assert [a, b, c][0] == a && [a, b, c][1..] == [b, c];
    PruneTwo(o, b, c);
    assert [PruneStmt(o, a).value] + [PruneStmt(o, b).value, PruneStmt(o, c).value]
      == [PruneStmt(o, a).value, PruneStmt(o, b).value, PruneStmt(o, c).value];
  }

  lemma PruneBlocksTwo(o: Context, a: seq<Stmt>, b: seq<Stmt>)
    requires PruneBlock(o, a).Ok? && PruneBlock(o, b).Ok?
    ensures PruneBlocks(o, [Block(a), Block(b)]) == Ok([Block(PruneBlock(o, a).value), Block(PruneBlock(o, b).value)])
  {
    var bs := [Block(a), Block(b)];
    assert bs[0] == Block(a) && bs[1..] == [Block(b)];
    assert [Block(b)][0] == Block(b) && [Block(b)][1..] == [];
    assert PruneBlocks(o, []) == Ok([]);
    assert [Block(PruneBlock(o, b).value)] + [] == [Block(PruneBlock(o, b).value)];
    assert [Block(PruneBlock(o, a).value)] + [Block(PruneBlock(o, b).value)]
      == [Block(PruneBlock(o, a).value), Block(PruneBlock(o, b).value)];
  }

  lemma PruneDef(o: Context, header: string, body: seq<Stmt>)
    requires PruneBlock(o, body).Ok?
    ensures SpecializeAst(o, Def(header, body)) == Ok(Def(header, PruneBlock(o, body).value))
  {
    var bs := [Block(body)];
    assert bs[0] == Block(body) && bs[1..] == [];
    assert PruneBlocks(o, []) == Ok([]);
    assert [Block(PruneBlock(o, body).value)] + [] == [Block(PruneBlock(o, body).value)];
    PruneSingleton(o, Compound(FunctionDef, header, bs));
  }

  // ---- The scenarios ----

  /** `if x == 1: return 2` then `return 3` (tests.py:6-9). */
  function SimpleBody(): seq<Stmt> {
    [If(Cond("x == 1"), [Return("2")], []), Return("3")]
  }

  /** Specialised for `x == 1`, the function always returns 2 (tests.py:14-17). */
  lemma TestSimpleTaken(o: Context, rt: Runtime)
    requires o.copyable && o.compiles("x == 1")
    requires o.verdict("x == 1") == Truthy
    ensures SpecializeAst(o, Def("f(x)", SimpleBody())) == Ok(Def("f(x)", [If(Num(1), [Return("2")], []), Return("3")]))
    ensures StraightBlock([If(Num(1), [Return("2")], []), Return("3")]) &&
      ExecBlock(rt, [If(Num(1), [Return("2")], []), Return("3")]).returned == Some("2")
  {
    PruneSingleton(o, Return("2"));
    PruneTwo(o, SimpleBody()[0], Return("3"));
    PruneDef(o, "f(x)", SimpleBody());
    var p := If(Num(1), [Return("2")], []);
    assert ExecBlock(rt, [Return("2")]) == Run([], Some("2"));
    assert ExecBlock(rt, [p, Return("3")]) == ExecStmt(rt, p);
  }

  /** Specialised for `x == 2`, the function always returns 3 (tests.py:19-22). */
  lemma TestSimpleNotTaken(o: Context, rt: Runtime)
    requires o.copyable && o.compiles("x == 1")
    requires o.verdict("x == 1") == Falsy
    ensures SpecializeAst(o, Def("f(x)", SimpleBody())) == Ok(Def("f(x)", [If(Num(1), [Pass], []), Return("3")]))
    ensures StraightBlock([If(Num(1), [Pass], []), Return("3")]) &&
      ExecBlock(rt, [If(Num(1), [Pass], []), Return("3")]).returned == Some("3")
  {
    PruneSingleton(o, Return("2"));
    PruneTwo(o, SimpleBody()[0], Return("3"));
    PruneDef(o, "f(x)", SimpleBody());
    var p := If(Num(1), [Pass], []);
    assert ExecBlock(rt, [Pass]) == Run([], None) by {
      assert [Pass][1..] == [];
    }
    assert [p, Return("3")][1..] == [Return("3")];
    assert ExecBlock(rt, [Return("3")]) == Run([], Some("3"));
  }

  /** `if x == 1: return 4 else: return 5` then `return 6` (tests.py:25-30). */
  lemma TestElse(o1: Context, o2: Context)
    requires o1.copyable && o2.copyable && o1.compiles("x == 1") && o2.compiles("x == 1")
    requires o1.verdict("x == 1") == Truthy && o2.verdict("x == 1") == Falsy
    ensures SpecializeAst(o1, Def("f(x)", [If(Cond("x == 1"), [Return("4")], [Return("5")]), Return("6")]))
      == Ok(Def("f(x)", [If(Num(1), [Return("4")], []), Return("6")]))
    ensures SpecializeAst(o2, Def("f(x)", [If(Cond("x == 1"), [Return("4")], [Return("5")]), Return("6")]))
      == Ok(Def("f(x)", [If(Num(1), [Return("5")], []), Return("6")]))
  {
    var f := If(Cond("x == 1"), [Return("4")], [Return("5")]);
    PruneSingleton(o1, Return("4"));
    PruneSingleton(o1, Return("5"));
    PruneSingleton(o2, Return("4"));
    PruneSingleton(o2, Return("5"));
    PruneTwo(o1, f, Return("6"));
    PruneTwo(o2, f, Return("6"));
    PruneDef(o1, "f(x)", [f, Return("6")]);
    PruneDef(o2, "f(x)", [f, Return("6")]);
  }

  /** The two arms that carry a test (the `if` and the `elif`) of
      `if x == 1 / elif x == 2 / else` (tests.py:46-53). */
  function ElifArms(): seq<(Expr, seq<Stmt>)> {
    [(Cond("x == 1"), [Return("7")]), (Cond("x == 2"), [Return("8")])]
  }

  /** Each context keeps one arm of the chain (tests.py:59-75). */
  lemma TestElif(o1: Context, o2: Context, o3: Context)
    requires o1.copyable && o2.copyable && o3.copyable
    requires o1.compiles("x == 1") && o2.compiles("x == 1") && o3.compiles("x == 1")
    requires o1.compiles("x == 2") && o2.compiles("x == 2") && o3.compiles("x == 2")
    requires o1.verdict("x == 1") == Truthy && o1.verdict("x == 2") == Falsy
    requires o2.verdict("x == 1") == Falsy && o2.verdict("x == 2") == Truthy
    requires o3.verdict("x == 1") == Falsy && o3.verdict("x == 2") == Falsy
    ensures PruneStmt(o1, ElifChain(ElifArms(), [Return("9")])) == Ok(If(Num(1), [Return("7")], []))
    ensures PruneStmt(o2, ElifChain(ElifArms(), [Return("9")])) == Ok(If(Num(1), [If(Num(1), [Return("8")], [])], []))
    ensures PruneStmt(o3, ElifChain(ElifArms(), [Return("9")])) == Ok(If(Num(1), [If(Num(1), [Return("9")], [])], []))
  {
    var arms := ElifArms();
    assert arms[0] == (Cond("x == 1"), [Return("7")]) && arms[1] == (Cond("x == 2"), [Return("8")]);
    PruneSingleton(o1, Return("7"));
    PruneSingleton(o1, Return("8"));
    PruneSingleton(o1, Return("9"));
    PruneSingleton(o2, Return("7"));
    PruneSingleton(o2, Return("8"));
    PruneSingleton(o2, Return("9"));
    PruneSingleton(o3, Return("7"));
    PruneSingleton(o3, Return("8"));
    PruneSingleton(o3, Return("9"));
    ElifChainCollapses(o1, arms, [Return("9")], 0);
    ElifChainCollapses(o2, arms, [Return("9")], 1);
    ElifChainCollapses(o3, arms, [Return("9")], 2);
  }

  /** `if x % 2 == 1:` around `if x == 1: return 11 else: return 12`, with
      `else: return 13` (tests.py:78-86), for `x` bound to 1, 2 and 3. */
  function NestedIf(): Stmt {
    If(Cond("x % 2 == 1"), [If(Cond("x == 1"), [Return("11")], [Return("12")])], [Return("13")])
  }

  lemma TestNestedIf(o1: Context, o2: Context, o3: Context)
    requires o1.copyable && o2.copyable && o3.copyable
    requires o1.compiles("x % 2 == 1") && o2.compiles("x % 2 == 1") && o3.compiles("x % 2 == 1")
    requires o1.compiles("x == 1") && o2.compiles("x == 1") && o3.compiles("x == 1")
    requires o1.verdict("x % 2 == 1") == Truthy && o1.verdict("x == 1") == Truthy
    requires o2.verdict("x % 2 == 1") == Falsy && o2.verdict("x == 1") == Falsy
    requires o3.verdict("x % 2 == 1") == Truthy && o3.verdict("x == 1") == Falsy
    ensures PruneStmt(o1, NestedIf()) == Ok(If(Num(1), [If(Num(1), [Return("11")], [])], []))
    ensures PruneStmt(o2, NestedIf()) == Ok(If(Num(1), [Return("13")], []))
    ensures PruneStmt(o3, NestedIf()) == Ok(If(Num(1), [If(Num(1), [Return("12")], [])], []))
  {
    var inner := If(Cond("x == 1"), [Return("11")], [Return("12")]);
    PruneSingleton(o1, Return("11"));
    PruneSingleton(o1, Return("12"));
    PruneSingleton(o1, Return("13"));
    PruneSingleton(o1, inner);
    PruneSingleton(o2, Return("11"));
    PruneSingleton(o2, Return("12"));
    PruneSingleton(o2, Return("13"));
    PruneSingleton(o2, inner);
    PruneSingleton(o3, Return("11"));
    PruneSingleton(o3, Return("12"));
    PruneSingleton(o3, Return("13"));
    PruneSingleton(o3, inner);
  }

  /** An `if` inside the `else` of another, after an assignment
      (tests.py:111-118), specialised for `x == 5`: every call returns 16. */
  lemma TestNestedIfInElse(o: Context, rt: Runtime)
    requires o.copyable && o.compiles("x == 4") && o.compiles("x == 5")
    requires o.verdict("x == 4") == Falsy && o.verdict("x == 5") == Truthy
    ensures PruneStmt(o, If(Cond("x == 4"), [Return("15")], [Simple("y = x + 2"), If(Cond("x == 5"), [Return("16")], [])]))
      == Ok(If(Num(1), [Simple("y = x + 2"), If(Num(1), [Return("16")], [])], []))
    ensures StraightStmt(If(Num(1), [Simple("y = x + 2"), If(Num(1), [Return("16")], [])], [])) &&
      ExecStmt(rt, If(Num(1), [Simple("y = x + 2"), If(Num(1), [Return("16")], [])], [])) == Run(["y = x + 2"], Some("16"))
  {
    var inner := If(Cond("x == 5"), [Return("16")], []);
    PruneSingleton(o, Return("15"));
    PruneSingleton(o, Return("16"));
    PruneTwo(o, Simple("y = x + 2"), inner);
    var p := If(Num(1), [Return("16")], []);
    assert ExecBlock(rt, [Return("16")]) == Run([], Some("16"));
    assert ExecStmt(rt, p) == Run([], Some("16"));
    assert [Simple("y = x + 2"), p][1..] == [p];
    assert ExecBlock(rt, [p]) == Run([], Some("16"));
    assert ExecBlock(rt, [Simple("y = x + 2"), p]) == Run(["y = x + 2"] + [], Some("16"));
  }

  /** The `if` inside a `for` loop is rewritten too (tests.py:148-155). */
  function LoopBody(): seq<Stmt> {
    [ Simple("results = []"),
      Compound(For, "x in xs", [
        Block([If(Cond("getattr(y, 'thingy')"), [Simple("results.append(x*2)")], [Simple("results.append(x*3)")])]),
        Block([])]),
      Return("results") ]
  }

  lemma TestLoop(o1: Context, o2: Context)
    requires o1.copyable && o2.copyable
    requires o1.compiles("getattr(y, 'thingy')") && o2.compiles("getattr(y, 'thingy')")
    requires o1.verdict("getattr(y, 'thingy')") == Truthy && o2.verdict("getattr(y, 'thingy')") == Falsy
    ensures SpecializeAst(o1, Def("f(xs, y)", LoopBody())) == Ok(Def("f(xs, y)", [
      Simple("results = []"),
      Compound(For, "x in xs", [Block([If(Num(1), [Simple("results.append(x*2)")], [])]), Block([])]),
      Return("results")]))
    ensures SpecializeAst(o2, Def("f(xs, y)", LoopBody())) == Ok(Def("f(xs, y)", [
      Simple("results = []"),
      Compound(For, "x in xs", [Block([If(Num(1), [Simple("results.append(x*3)")], [])]), Block([])]),
      Return("results")]))
  {
    var test := If(Cond("getattr(y, 'thingy')"), [Simple("results.append(x*2)")], [Simple("results.append(x*3)")]);
    var loop := Compound(For, "x in xs", [Block([test]), Block([])]);
    PruneSingleton(o1, Simple("results.append(x*2)"));
    PruneSingleton(o1, Simple("results.append(x*3)"));
    PruneSingleton(o1, test);
    PruneBlocksTwo(o1, [test], []);
    PruneThree(o1, Simple("results = []"), loop, Return("results"));
    PruneDef(o1, "f(xs, y)", LoopBody());
    PruneSingleton(o2, Simple("results.append(x*2)"));
    PruneSingleton(o2, Simple("results.append(x*3)"));
    PruneSingleton(o2, test);
    PruneBlocksTwo(o2, [test], []);
    PruneThree(o2, Simple("results = []"), loop, Return("results"));
    PruneDef(o2, "f(xs, y)", LoopBody());
  }

  /** `if x > y: r = x else: r = y` with only `y` bound: `x > y` raises
      `NameError`, which is swallowed, and nothing changes (tests.py:176-186). */
  lemma TestIndeterminate(o: Context)
    requires o.compiles("x > y") && o.verdict("x > y") == EvalRaises
    ensures SpecializeAst(o, Def("f(x, y)", [If(Cond("x > y"), [Simple("r = x")], [Simple("r = y")]), Return("r")]))
      == Ok(Def("f(x, y)", [If(Cond("x > y"), [Simple("r = x")], [Simple("r = y")]), Return("r")]))
  {
    var body := [If(Cond("x > y"), [Simple("r = x")], [Simple("r = y")]), Return("r")];
    var tree := Def("f(x, y)", body);
    assert BlocksTests([Block(body)]) == BlockTests(body) + BlocksTests([]) by {
      assert [Block(body)][1..] == [];
    }
    assert BlockTests(tree.body) == [Cond("x > y")] by {
      assert tree.body == [tree.body[0]] && tree.body[1..] == [];
      assert body[1..] == [Return("r")] && [Return("r")][1..] == [];
      assert [Simple("r = x")][1..] == [] && [Simple("r = y")][1..] == [];
    }
    SpecializeAstUndecided(o, tree);
  }

  /** tests.py:191-198: an undecidable outer test around a decidable one. */
  function Divergent(): seq<Stmt> {
    [If(Cond("x > y"), [If(Cond("y == 4"), [Return("128")], []), Simple("r = x")], [Simple("r = y")]), Return("r")]
  }

  /** The function body specialised for `y == 4`. */
  function DivergentFor4(): seq<Stmt> {
    [If(Cond("x > y"), [If(Num(1), [Return("128")], []), Simple("r = x")], [Simple("r = y")]), Return("r")]
  }

  /** The inner test is decided by the bindings alone, at its depth, while
      the outer one is kept (tests.py:204-212). */
  lemma TestDivergent(o4: Context, o5: Context)
    requires o4.copyable && o5.copyable
    requires o4.compiles("x > y") && o5.compiles("x > y") && o4.compiles("y == 4") && o5.compiles("y == 4")
    requires o4.verdict("x > y") == EvalRaises && o4.verdict("y == 4") == Truthy
    requires o5.verdict("x > y") == EvalRaises && o5.verdict("y == 4") == Falsy
    ensures PruneBlock(o4, Divergent()) == Ok(DivergentFor4())
    ensures SpecializeAst(o4, Def("f(x, y)", Divergent())) == Ok(Def("f(x, y)", DivergentFor4()))
    ensures SpecializeAst(o5, Def("f(x, y)", Divergent())) == Ok(Def("f(x, y)",
      [If(Cond("x > y"), [If(Num(1), [Pass], []), Simple("r = x")], [Simple("r = y")]), Return("r")]))
  {
    var inner := If(Cond("y == 4"), [Return("128")], []);
    var outer := If(Cond("x > y"), [inner, Simple("r = x")], [Simple("r = y")]);
    PruneSingleton(o4, Return("128"));
    PruneSingleton(o4, Simple("r = y"));
    PruneTwo(o4, inner, Simple("r = x"));
    PruneTwo(o4, outer, Return("r"));
    PruneDef(o4, "f(x, y)", Divergent());
    PruneSingleton(o5, Return("128"));
    PruneSingleton(o5, Simple("r = y"));
    PruneTwo(o5, inner, Simple("r = x"));
    PruneTwo(o5, outer, Return("r"));
    PruneDef(o5, "f(x, y)", Divergent());
  }

  /** The function specialised for `y == 4`, called with `(10, 5)`, returns
      128 (tests.py:212). */
  lemma DivergentCall(rt: Runtime)
    requires rt("x > y") && !rt("y == 4")
    ensures StraightBlock(DivergentFor4()) && ExecBlock(rt, DivergentFor4()).returned == Some("128")
  {
    var d4 := DivergentFor4();
    var inner := If(Num(1), [Return("128")], []);
    assert d4[1..] == [Return("r")];
    assert ExecBlock(rt, [Return("128")]) == Run([], Some("128"));
    assert ExecBlock(rt, [inner, Simple("r = x")]) == ExecStmt(rt, inner);
    assert ExecBlock(rt, d4) == ExecStmt(rt, d4[0]);
  }

  /** The original function returns `r`, that is 10, for the same call. */
  lemma DivergentOriginal(rt: Runtime)
    requires rt("x > y") && !rt("y == 4")
    ensures StraightBlock(Divergent()) && ExecBlock(rt, Divergent()) == Run(["r = x"], Some("r"))
  {
    var d := Divergent();
    var inner := If(Cond("y == 4"), [Return("128")], []);
    assert d[1..] == [Return("r")] && [Return("r")][1..] == [];
    assert [inner, Simple("r = x")][1..] == [Simple("r = x")] && [Simple("r = x")][1..] == [];
    assert ExecBlock(rt, []) == Run([], None);
    assert ExecBlock(rt, [Simple("r = x")]) == Run(["r = x"], None);
    assert ExecBlock(rt, [inner, Simple("r = x")]) == Run([] + ["r = x"], None);
    assert ExecBlock(rt, [Return("r")]) == Run([], Some("r"));
    assert ExecBlock(rt, d) == Run(["r = x"] + [], Some("r"));
  }

  /** That call's `y == 4` is false, which the context does not agree with. */
  lemma DivergentInconsistent(o4: Context, rt: Runtime)
    requires o4.copyable && o4.compiles("y == 4")
    requires o4.verdict("y == 4") == Truthy && !rt("y == 4")
    ensures !Consistent(o4, rt, BlockTests(Divergent()))
  {
    var d := Divergent();
    var inner := If(Cond("y == 4"), [Return("128")], []);
    assert BlockTests(d) == StmtTests(d[0]) + BlockTests(d[1..]);
    assert StmtTests(d[0]) == BlockTests([inner, Simple("r = x")]) + BlockTests([Simple("r = y")]) + [Cond("x > y")];
    assert BlockTests([inner, Simple("r = x")]) == StmtTests(inner) + BlockTests([Simple("r = x")]);
    assert Cond("y == 4") in BlockTests(d);
  }

  /** `do_things` with the object's `x == 'add'` (tests.py:222-241): the
      locals are `self` alone, the `elif` arm is dropped, and the specialised
      method adds even after the object's `x` changes. */
  lemma TestInstanceMethod<V>(o: Context, rt: Runtime, t: V)
    requires o.copyable && o.compiles("self.x == 'add'") && o.compiles("self.x == 'multiply'")
    requires o.verdict("self.x == 'add'") == Truthy && o.verdict("self.x == 'multiply'") == Falsy
    ensures MethodLocals(t, None) == map["self" := t]
    ensures PruneStmt(o, ElifChain([(Cond("self.x == 'add'"), [Return("y + self.k")]),
                                   (Cond("self.x == 'multiply'"), [Return("y * self.k")])], []))
      == Ok(If(Num(1), [Return("y + self.k")], []))
    ensures StraightStmt(If(Num(1), [Return("y + self.k")], [])) &&
      ExecStmt(rt, If(Num(1), [Return("y + self.k")], [])).returned == Some("y + self.k")
  {
    var arms := [(Cond("self.x == 'add'"), [Return("y + self.k")]), (Cond("self.x == 'multiply'"), [Return("y * self.k")])];
    assert arms[0].1 == [Return("y + self.k")] && arms[1].1 == [Return("y * self.k")];
    PruneSingleton(o, Return("y + self.k"));
    PruneSingleton(o, Return("y * self.k"));
    ElifChainCollapses(o, arms, [], 0);
    assert ExecBlock(rt, [Return("y + self.k")]) == Run([], Some("y + self.k"));
  }
}
