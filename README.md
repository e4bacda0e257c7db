# py-rtspec specializer, modelled in Dafny

`specializer.py` specialises a Python 2 function to fixed values of some of
its variables. It takes the function's source text and makes it flush left
(`unindent`). It parses the text and rewrites the syntax tree
(`_specialize_ast`). Every `if` whose test the given bindings decide ends up
as `if 1:` over the branch that will run. Every `if` whose test cannot be
evaluated with those bindings is kept as it is. The result is then compiled.
This project models the two parts that do the work: `unindent` and the
branch pruner.

- `pystr.dfy` (module `PyStr`): the `str` operations that `unindent` uses.
  These are `split('\n')`, `'\n'.join`, `strip()`, `index`, `startswith`
  and `' ' * n`, with Python 2's ASCII whitespace. It also holds
  `u'\n'.join`, which decodes each `str` line with the ASCII codec first. Two
  round-trip lemmas tie `split` and `join` together.
- `unindent.dfy`:
  - Module `Unindent` holds the specification function `Unindented` and the
    method `Unindent`. The method is written with the source's two loops. The
    first loop and its `break` are in `MeasureIndent`.
  - The source's `assert` becomes the result `Err(MisIndented(k))`, where
    `k` is the first offending line.
  - The `UnicodeDecodeError` that `u'\n'.join` raises on a line holding a
    byte of 0x80 or more becomes `Err(Undecodable(k))`. An indented source
    with a UTF-8 comment is refused this way.
  - Module `UnindentProperties` proves what the function promises.
- `wrappers.dfy`: `Option`, and `Result`, which models an exception that
  nothing catches.
- `ast.dfy` (module `Ast`): the statements the pruner sees.
  - `If`.
  - Every other compound statement (`def`, `class`, `for`, `while`, `with`,
    `try`), with its statement lists in field order.
  - `pass`, `return` and the other simple statements.
  - A test is an integer literal or an expression known by its text.
  - An `if/elif/else` chain is built as the parser builds it.
- `pruner.dfy` (module `Pruner`): `NodeTransformer.generic_visit` and
  `visit_If`, as pure recursive functions.
  - The fixed context (`_globals`, `_locals`) is a `Context`. It records
    which non-literal tests `compile` accepts, and whether
    `deepcopy(_locals)` succeeds. If both do, an oracle gives each
    non-literal test one of five verdicts: `bool()` of the value is true;
    it is false; `eval` raises an `Exception`; `eval` raises something
    `except Exception` does not catch; or `bool()` raises.
  - `compile` runs first, outside the `try`, so a test it refuses escapes
    whatever the locals are. If a test compiles but the copy fails, its
    evaluation raises inside the `try`, literals included. A tree whose
    tests all compile is then left unchanged. Otherwise integer literals are
    evaluated directly, so `1` is always taken.
- `pruning.dfy` (module `PrunerProperties`): the per-node rules, the
  structural guarantees, post-order evaluation, idempotence, locality and
  the collapse of `elif` chains.
- `exec.dfy` (module `Execution`): a reference semantics for straight-line
  code. It states what pruning is for. A call whose tests agree with the
  context behaves exactly as the original did.
- `binder.dfy` (module `Binder`): the locals that
  `specialize_instance_method` builds.
- `scenarios.dfy` (module `Scenarios`): the pruning outcomes that the test
  suite observes, for every context that gives the tests' verdicts.

Three points where the model follows the code closely:

- Exceptions from `bool(r)` (specializer.py:65-67) are not swallowed. The
  call is in the `else` clause of the `try`, so only exceptions from `eval`
  itself are caught. The model's verdict `BoolRaises` therefore makes the
  whole rewrite fail. The exception names the first such test in post-order.
- Even from `eval`, only instances of `Exception` are caught
  (specializer.py:62). `SystemExit`, `KeyboardInterrupt`, `GeneratorExit`
  and instances of old-style classes escape. So does the `SyntaxError`
  that `compile` (specializer.py:59, outside the `try`) raises on a test
  that parses but cannot stand alone, such as `(yield)` in a generator.
  The verdict `EvalEscapes` stands for all of these and makes the rewrite
  fail in the same way. A refused `compile` gives it before the copy of the
  locals is attempted (`PrunerProperties.PruneIfCompileRefused`).
- In tests.py:190-212 only `y` is bound. So `x > y` raises `NameError`, and
  the outer `if` is kept unchanged. Only the inner `y == 4` is decided
  (`Scenarios.TestDivergent`). A reading in which the outer branch also
  collapses for `y = 4` does not follow from the code.

## Model

| member | source | states |
|---|---|---|
| `PyStr.IsBlank` | specializer.py:24-25 | a line is blank (its `strip()` is falsy) exactly when its leading whitespace is the whole line |
| `PyStr.Strip` | specializer.py:24 | `strip()` is empty exactly when the line is all whitespace; otherwise it starts with the first non-whitespace character |
| `PyStr.RStripTrims` | specializer.py:24 | `rstrip()` keeps a prefix and removes only trailing whitespace, ending on a non-space |
| `PyStr.IndexOf` | specializer.py:26 | `index` finds the first occurrence of the character |
| `PyStr.StartsWith` | specializer.py:38 | `startswith(p)` holds exactly when the line is `p` followed by the rest of it |
| `PyStr.Repeat` | specializer.py:30 | `' ' * n` is `n` copies of the space |
| `PyStr.Split` | specializer.py:19 | `split('\n')` gives at least one piece, and no piece holds a newline |
| `PyStr.Join` | specializer.py:41 | `'\n'.join`, defined by recursion; `PyStr.SplitJoin` and `PyStr.JoinSplit` state it as the inverse of `split('\n')` |
| `PyStr.JoinSplit` | specializer.py:19 | joining the pieces of `split('\n')` with newlines gives the text back |
| `PyStr.SplitJoin` | specializer.py:41 | splitting the join of newline-free lines gives the lines back |
| `PyStr.UnicodeJoin` | specializer.py:41 | `u'\n'.join` of `str` lines succeeds exactly when every line is ASCII, and then gives the `'\n'.join`; otherwise it raises on the first line that is not |
| `Unindent.IndentLen` | specializer.py:21-27 | the indentation measured by the first loop, by recursion over the lines; `IndentLenOfFirst` and `IndentLenAllBlank` state its value |
| `Unindent.IndentLenOfFirst` | specializer.py:21-27 | the indentation is the leading whitespace of the first non-blank line |
| `Unindent.IndentLenAllBlank` | specializer.py:22-28 | with no non-blank line the indentation is 0 |
| `Unindent.FirstMisindented` | specializer.py:34-38 | finds the first non-blank line that lacks the indentation pad; every earlier line has it |
| `Unindent.Dedent` | specializer.py:35-39 | a blank line is kept; any other line is exactly `n` spaces followed by its result |
| `Unindent.DedentAll` | specializer.py:34-40 | the list of new lines has one line per input line: blank lines unchanged, every other line the input without exactly its `n` leading spaces |
| `Unindent.Unindented` | specializer.py:10-41 | what `unindent` returns or raises: a text that is flush left never fails, and a failure names one of the text's lines |
| `Unindent.MeasureIndent` | specializer.py:21-27 | the first loop with its `break` computes exactly `IndentLen` |
| `Unindent.Unindent` | specializer.py:10-41 | the method with both loops returns exactly `Unindented(code)`, including the failure on the first mis-indented line and the decoding failure of the join |
| `UnindentProperties.UnindentFlushIsIdentity` | specializer.py:21-29 | a text whose first non-blank line is flush left is returned unchanged |
| `UnindentProperties.UnindentedLines` | specializer.py:32-41 | the output has as many lines as the input; blank lines are unchanged; every other line is the pad followed by its output line |
| `UnindentProperties.DedentKeepsText` | specializer.py:38-39 | a non-blank line that starts with the pad keeps its text, and its remaining indentation is the old one minus the pad |
| `UnindentProperties.DedentAscii` | specializer.py:39-41 | shifting a line left removes only spaces, so it decodes as ASCII exactly when the original does |
| `UnindentProperties.UnindentFailsIff` | specializer.py:30-41 | it fails exactly when the indentation is positive and some line either is non-blank and lacks the pad, or is not ASCII; an indentation failure names the first line that lacks the pad |
| `UnindentProperties.UnindentUndecodable` | specializer.py:34-41 | a decoding failure comes only after every line passed the indentation check, and names the first line that is not ASCII |
| `UnindentProperties.NonSpaceIndentFails` | specializer.py:26-38 | indentation containing a non-space (a tab) makes the first non-blank line fail; nothing is cut silently |
| `UnindentProperties.UnindentIdempotent` | specializer.py:21-41 | unindenting a successful result again returns it unchanged |
| `UnindentProperties.UnindentTwoLines` | specializer.py:32-41 | two lines indented by the same pad lose exactly the pad, unless one of them is not ASCII; then the first such line is refused |
| `UnindentProperties.DocExample` | specializer.py:13-14 | the docstring example `'        def f(x):\n            return Zz'` becomes `'def f(x):\n    return Zz'` |
| `UnindentProperties.TabExample` | specializer.py:30-38 | a tab-indented text is refused at line 0 |
| `UnindentProperties.NonAsciiExample` | specializer.py:41 | an indented source whose first line is a UTF-8 comment passes the indentation check and is refused at line 0 by the join |
| `Ast.ElifChain` | specializer.py:51-52 | an `if/elif/else` chain as the parser nests it: an `if` with the first arm's test and body, the later arms nested in its `else` |
| `Pruner.Evaluate` | specializer.py:59-67 | the verdict on a test: a test that `compile` refuses escapes; if it compiles but `_locals` cannot be deep-copied it raises, literals included; otherwise an integer literal always evaluates, and `1` is always true |
| `Pruner.BranchTaken` | specializer.py:60-67 | the branch is unknown exactly when `eval` raises an `Exception`; the call fails, naming the test, exactly when the test's exception escapes |
| `Pruner.Rewrite` | specializer.py:69-91 | a decided node becomes `if 1:` with no `else` over the branch that runs (the body when taken, the non-empty `else` when not, `pass` when not taken and there is no `else`); an undecided node is kept |
| `Pruner.VisitIf` | specializer.py:54-91 | `visit_If` returns one `if` node, unless the test's exception escapes |
| `Pruner.PruneStmt` | specializer.py:51-52 | a statement is visited children first; an `if` comes back as an `if`, a compound statement as a compound statement |
| `Pruner.PruneBlock` | specializer.py:50-52 | visiting a statement list keeps its length |
| `Pruner.PruneBlocks` | specializer.py:50-52 | visiting the lists of a compound statement keeps their number |
| `Pruner.SpecializeAst` | specializer.py:44-93 | the module keeps its number of statements |
| `PrunerProperties.PruneIfTaken` | specializer.py:69-76 | a true test: the `else` is dropped, the test becomes `1`, and the rewritten body is kept |
| `PrunerProperties.PruneIfNotTakenNoElse` | specializer.py:77-83 | a false test with no `else`: the node becomes `if 1: pass` |
| `PrunerProperties.PruneIfNotTaken` | specializer.py:84-88 | a false test with an `else`: the rewritten `else` becomes the body of `if 1`, and the `else` is emptied |
| `PrunerProperties.PruneIfUnknown` | specializer.py:60-64 | `eval` raises: the exception is swallowed and the node keeps its test and its rewritten branches |
| `PrunerProperties.PruneIfEvalEscapes` | specializer.py:59-62 | `compile` refuses the test outside the `try`, or `eval` raises something that is not an `Exception`: it escapes the rewrite |
| `PrunerProperties.PruneIfBoolRaises` | specializer.py:65-67 | `bool()` raises: the exception escapes the rewrite |
| `PrunerProperties.PruneStmtShape` | specializer.py:50-52 | one node in, one node out: an `if` stays an `if`; other compound statements keep kind, header and list lengths; simple statements are unchanged |
| `PrunerProperties.PruneBlockShape` | specializer.py:50-52 | every statement of a list is replaced by one matching statement |
| `PrunerProperties.PruneBlocksShape` | specializer.py:50-52 | every list of a compound statement keeps its length |
| `PrunerProperties.PruneStmtRaises` | specializer.py:51-67 | the rewrite fails exactly when some test raises an escaping exception, in `eval` or in `bool()`, and the error names the first such test in post-order (children before the node) |
| `PrunerProperties.PruneBlockRaises` | specializer.py:51-67 | the same for a statement list, in statement order |
| `PrunerProperties.PruneBlocksRaises` | specializer.py:51-67 | the same for the lists of a compound statement, in field order |
| `PrunerProperties.SpecializeAstSucceeds` | specializer.py:58-67 | an `Exception` from `eval` never escapes; the rewrite succeeds exactly when no test raises anything else, in `eval` or in `bool()` |
| `PrunerProperties.PruneStmtSettles` | specializer.py:69-91 | after one pass every `if` has the test `1` and no `else`, or a test that raises in `eval` |
| `PrunerProperties.SettledStmtIsFixed` | specializer.py:69-91 | a settled tree is rewritten to itself, because `1` is always taken |
| `PrunerProperties.SpecializeAstIdempotent` | specializer.py:44-93 | a second pass in the same context returns the first pass's result |
| `PrunerProperties.SpecializeAstUndecided` | specializer.py:58-64 | a context in which every test raises in `eval` leaves the tree unchanged |
| `PrunerProperties.PruneIfCompileRefused` | specializer.py:59-60 | a test that `compile` refuses escapes the rewrite, whether or not the locals can be copied |
| `PrunerProperties.SpecializeAstUncopyable` | specializer.py:59-64 | locals that cannot be deep-copied leave a tree whose tests all compile unchanged, even `if 1:` |
| `PrunerProperties.PruneStmtLocal` | specializer.py:51-61 | two contexts that give a statement's tests the same verdicts rewrite it alike, at every depth |
| `PrunerProperties.ElifChainOk` | specializer.py:51-67 | an `elif` chain is rewritten without error when no test raises an escaping exception and no arm fails |
| `PrunerProperties.ElifChainCollapses` | specializer.py:77-88 | an `if/elif/else` chain collapses to the single arm the context selects, under nested `if 1:` |
| `Execution.PruneIfKeepsRun` | specializer.py:69-91 | rewriting one `if` keeps every run whose test value agrees with the context |
| `Execution.PruneStmtKeepsRun` | specializer.py:44-49 | pruning keeps straight-line code straight and keeps every run consistent with the context |
| `Execution.PruneBlockKeepsRun` | specializer.py:44-49 | the same for statement lists |
| `Binder.MethodLocals` | specializer.py:117-120 | the locals are `self` plus the caller's bindings, if any; the caller's bindings win |
| `Scenarios.TestSimpleTaken` | tests.py:5-17 | for `x == 1` the function becomes `if 1: return 2` and always returns 2 |
| `Scenarios.TestSimpleNotTaken` | tests.py:19-22 | for `x == 2` the `if` becomes `if 1: pass` and the function always returns 3 |
| `Scenarios.TestElse` | tests.py:24-43 | each context keeps one branch of `if/else` |
| `Scenarios.TestElif` | tests.py:45-75 | each of three contexts keeps one arm of `if/elif/else` |
| `Scenarios.TestNestedIf` | tests.py:77-108 | nested decided tests keep one leaf |
| `Scenarios.TestNestedIfInElse` | tests.py:110-127 | the `else` with its inner `if` is promoted; every call returns 16 |
| `Scenarios.TestLoop` | tests.py:147-173 | the `if` inside the `for` loop is decided |
| `Scenarios.TestIndeterminate` | tests.py:175-188 | a test that raises `NameError` leaves the function unchanged |
| `Scenarios.TestDivergent` | tests.py:190-212 | the inner `y == 4` is decided while the undecidable outer test is kept |
| `Scenarios.DivergentCall` | tests.py:209-212 | the version specialised for `y == 4`, called with `(10, 5)`, returns 128 |
| `Scenarios.DivergentOriginal` | tests.py:190-202 | the original function, on the same call, returns `r` after `r = x` |
| `Scenarios.DivergentInconsistent` | tests.py:209-212 | that call disagrees with the context on `y == 4` |
| `Scenarios.TestInstanceMethod` | tests.py:215-241 | with only `self` bound and `self.x == 'add'`, the method keeps the adding arm even after `t.x` changes |

## Left out

- `specialize_function` (specializer.py:96-109) is glue over the Python
  runtime, none of which can be modelled here: `inspect.getsource`, the
  `sys.modules` lookup, `ast.parse`, `compile` and `exec`. Because the tree
  is parsed afresh for each call, no state is shared between
  specialisations (tests.py:129-145). The pure model has none either.
- `specialize_instance_method` (specializer.py:121-123): binding with
  `MethodType` belongs to the Python object model. Only the bindings it
  builds are modelled.
- `compile`, `eval` and `deepcopy(_locals)` (specializer.py:59-61) are the
  `Context`: which tests compile, whether the copy succeeds, and a verdict
  per non-literal test. The model relies on the assumption in the docstring that tests
  have no side effects (specializer.py:48). A test that changes
  `_globals` would change later verdicts; the model cannot express that.
- `lineno`/`col_offset` metadata, and `Num(1)` as opposed to `True`
  (specializer.py:72-87): they have no effect on what the code does.
- Expressions are visited by `generic_visit` but contain no statements, so
  they are never rewritten. They stay opaque text.
- `Execution.PruneIfKeepsRun`, `Execution.PruneStmtKeepsRun`,
  `Execution.PruneBlockKeepsRun`: the reference semantics gives meaning
  only to straight-line code (`if`, `pass`, `return`, simple statements).
  Each test has one truth value for the whole call. Loops and assignments that change a test's value are outside it.
- `Unindent.Unindent`: under `python -O` the `assert` (specializer.py:38)
  is skipped. The model always fails on a mis-indented line.
- `Unindent.Unindent`: the result of `u'\n'.join` (specializer.py:41) is a
  `unicode` object, while `return code` returns the input `str`. Strings
  are `seq<char>` here, so the two types are not told apart. The decoding
  that this join does is modelled. The input is taken to be a `str`, as
  `inspect.getsource` returns, with one character per byte. A `unicode`
  input is not modelled.
- `UnindentProperties.UnindentIdempotent`: the second call reads the
  first call's `unicode` result as a `str`. On a `unicode` string Python 2's
  `strip()` also removes `\x1c` to `\x1f`, so the source's second call can
  measure a different indentation on such a line. A text like that cannot
  come from `inspect.getsource`, and the lemma does not cover it.
- `KeyboardInterrupt` can arrive at any moment, not only as the result of
  one test. The model treats it like the rest of `EvalEscapes`, as a
  property of a test.
- Python 3's Unicode whitespace for `strip()`. The source runs on Python 2
  (it uses the `exec` statement), where `strip()` removes ASCII whitespace
  only.
