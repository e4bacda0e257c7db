/** The source normalizer `unindent`: removes from every non-blank line the
    indentation of the first non-blank line, fails (the source's `assert`)
    on a non-blank line that does not start with that many spaces, and fails
    when the joined result cannot be decoded as ASCII. */
module Unindent {
  import opened PyStr
  import opened Wrappers

  /** The exception `unindent` raises, with the line (counted from 0) it is
      raised on: the `AssertionError` of a line that lacks the indentation,
      or the `UnicodeDecodeError` of `u'\n'.join` on a line that is not ASCII. */
  datatype Error = MisIndented(line: nat) | Undecodable(line: nat)

  /** Line `k` is the first non-blank line. */
  ghost predicate FirstNonBlankAt(lines: seq<string>, k: nat) {
    k < |lines| && !IsBlank(lines[k]) && forall j :: 0 <= j < k ==> IsBlank(lines[j])
  }

  /** The width of the leading whitespace of the first non-blank line, or 0
      when every line is blank (`IndentLenOfFirst`, `IndentLenAllBlank`). */
  function IndentLen(lines: seq<string>): nat {
    if lines == [] then 0
    else if IsBlank(lines[0]) then IndentLen(lines[1..])
    else LeadingSpace(lines[0])
  }

  lemma {:induction false} IndentLenOfFirst(lines: seq<string>, k: nat)
    requires FirstNonBlankAt(lines, k)
    ensures IndentLen(lines) == LeadingSpace(lines[k])
  {
    if k > 0 {
      assert IsBlank(lines[0]);
      assert FirstNonBlankAt(lines[1..], k - 1);
      IndentLenOfFirst(lines[1..], k - 1);
    }
  }

  lemma {:induction false} IndentLenAllBlank(lines: seq<string>)
    requires forall j :: 0 <= j < |lines| ==> IsBlank(lines[j])
    ensures IndentLen(lines) == 0
  {
    if lines != [] {
      IndentLenAllBlank(lines[1..]);
    }
  }

  /** A line that the `assert` lets through: blank, or starting with `n` spaces. */
  predicate Indented(line: string, n: nat) {
    IsBlank(line) || StartsWith(line, Repeat(' ', n))
  }

  /** The index of the first line that is not indented by `n`, or `|lines|`. */
  function FirstMisindented(lines: seq<string>, n: nat): (k: nat)
    ensures k <= |lines|
    ensures forall j :: 0 <= j < k ==> Indented(lines[j], n)
    ensures k < |lines| ==> !Indented(lines[k], n)
  {
    if lines == [] then 0
    else if !Indented(lines[0], n) then 0
    else 1 + FirstMisindented(lines[1..], n)
  }

  /** One line shifted left by `n`: blank lines are kept as they are, and
      any other line is exactly `n` spaces followed by its result. */
  function Dedent(line: string, n: nat): (d: string)
    requires Indented(line, n)
    ensures IsBlank(line) ==> d == line
    ensures !IsBlank(line) ==> line == Repeat(' ', n) + d
  {
    if IsBlank(line) then line else line[n..]
  }

  /** What `unindent(code)` returns or raises. A text that is already flush
      left never fails, and a failure names one of its lines. */
  function Unindented(code: string): (r: Result<string, Error>)
    ensures r.Err? ==> IndentLen(Split(code)) > 0 && r.error.line < |Split(code)|
  {
    var lines := Split(code);
    var n := IndentLen(lines);
    if n == 0 then Ok(code)
    else
      var k := FirstMisindented(lines, n);
      if k < |lines| then Err(MisIndented(k))
      else
        match UnicodeJoin(DedentAll(lines, n))
        case Ok(text) => Ok(text)
        case Err(u) => Err(Undecodable(u))
  }

  /** Every line shifted left by `n`: blank lines kept, every other line
      losing exactly its first `n` characters, which are spaces. */
  function DedentAll(lines: seq<string>, n: nat): (out: seq<string>)
    requires forall j :: 0 <= j < |lines| ==> Indented(lines[j], n)
    ensures |out| == |lines|
    ensures forall j :: 0 <= j < |lines| ==>
      (IsBlank(lines[j]) ==> out[j] == lines[j]) && (!IsBlank(lines[j]) ==> lines[j] == Repeat(' ', n) + out[j])
  {
    seq(|lines|, j requires 0 <= j < |lines| => Dedent(lines[j], n))
  }

  /** The stripped line's first character is first found where the leading
      whitespace ends: this is how the source measures the indentation. */
  lemma IndexOfStripped(line: string)
    requires !IsBlank(line)
    ensures Strip(line) != [] && IndexOf(line, Strip(line)[0]) == LeadingSpace(line)
  {
  }

  /** The first loop of `unindent` (specializer.py:21-27): scans for the first
      line whose `strip()` is non-empty and measures where its text starts. */
  method MeasureIndent(lines: seq<string>) returns (indentLen: nat)
    ensures indentLen == IndentLen(lines)
  {
    indentLen := 0;
    var i := 0;
    while i < |lines|
      invariant i <= |lines|
      invariant forall j :: 0 <= j < i ==> IsBlank(lines[j])
    {
      var stripped := Strip(lines[i]);
      if stripped != [] {
        IndexOfStripped(lines[i]);
        indentLen := IndexOf(lines[i], stripped[0]);
        assert FirstNonBlankAt(lines, i);
        IndentLenOfFirst(lines, i);
        return;
      }
      i := i + 1;
    }
    IndentLenAllBlank(lines);
  }

  /** `unindent` (specializer.py:10-41): measures the indentation, returns the
      text unchanged when it is zero, and otherwise builds the shifted lines,
      failing on the first non-blank line that lacks the indentation, and
      joins them into a `unicode` string, which decodes every line. */
  method Unindent(code: string) returns (r: Result<string, Error>)
    ensures r == Unindented(code)
  {
    var lines := Split(code);
    var indentLen := MeasureIndent(lines);
    if indentLen == 0 {
      return Ok(code);
    }
    var indentPad := Repeat(' ', indentLen);
    var newLines: seq<string> := [];
    for j := 0 to |lines|
      invariant |newLines| == j
      invariant forall m :: 0 <= m < j ==> Indented(lines[m], indentLen)
      invariant forall m :: 0 <= m < j ==> newLines[m] == Dedent(lines[m], indentLen)
    {
      var line := lines[j];
      // `line.strip()` is truthy exactly when the line is not blank (`Strip`)
      if !IsBlank(line) {
        if !StartsWith(line, indentPad) {
          assert FirstMisindented(lines, indentLen) == j;
          return Err(MisIndented(j));
        }
        line := line[indentLen..];
      }
      assert Indented(lines[j], indentLen) && line == Dedent(lines[j], indentLen);
      newLines := newLines + [line];
    }
    assert FirstMisindented(lines, indentLen) == |lines|;
    assert newLines == DedentAll(lines, indentLen);
    var joined := UnicodeJoin(newLines);
    if joined.Err? {
      return Err(Undecodable(joined.error));
    }
    return Ok(joined.value);
  }
}

/** What `unindent` promises, proved about `Unindented`. */
module UnindentProperties {
  import opened PyStr
  import opened Wrappers
  import opened Unindent

  /** Some line is non-blank exactly when there is a first non-blank line. */
  lemma {:induction false} FirstNonBlankExists(lines: seq<string>)
    requires exists j :: 0 <= j < |lines| && !IsBlank(lines[j])
    ensures exists k: nat :: FirstNonBlankAt(lines, k)
  {
    if IsBlank(lines[0]) {
      var j :| 0 <= j < |lines| && !IsBlank(lines[j]);
      assert 0 <= j - 1 < |lines[1..]| && !IsBlank(lines[1..][j - 1]);
      FirstNonBlankExists(lines[1..]);
      var k: nat :| FirstNonBlankAt(lines[1..], k);
      assert FirstNonBlankAt(lines, k + 1);
    } else {
      assert FirstNonBlankAt(lines, 0);
    }
  }

  /** The leading whitespace ends at the first character that is not whitespace. */
  lemma LeadingSpaceAt(s: string, p: nat)
    requires p < |s| && !IsSpace(s[p])
    requires forall i :: 0 <= i < p ==> IsSpace(s[i])
    ensures LeadingSpace(s) == p
  {
  }

  /** A line that starts with `n` spaces is those spaces and the rest. */
  lemma PadThenRest(line: string, n: nat)
    requires StartsWith(line, Repeat(' ', n))
    ensures line == Repeat(' ', n) + line[n..]
    ensures LeadingSpace(line) >= n
  {
    assert line == line[..n] + line[n..];
    assert forall i :: 0 <= i < n ==> line[i] == Repeat(' ', n)[i];
  }

  /** Dropping `n` leading whitespace characters shortens the leading run by `n`. */
  lemma DropLeading(line: string, n: nat, t: string)
    requires n <= LeadingSpace(line) < |line| && t == line[n..]
    ensures LeadingSpace(t) == LeadingSpace(line) - n
  {
    var m := LeadingSpace(line);
    assert !IsSpace(t[m - n]);
    assert forall i :: 0 <= i < m - n ==> IsSpace(t[i]);
    LeadingSpaceAt(t, m - n);
  }

  /** A non-blank line indented by `n` still has its text after dedenting. */
  lemma DedentKeepsText(line: string, n: nat)
    requires !IsBlank(line) && StartsWith(line, Repeat(' ', n))
    ensures line == Repeat(' ', n) + line[n..]
    ensures LeadingSpace(line) >= n
    ensures !IsBlank(line[n..])
    ensures LeadingSpace(line[n..]) == LeadingSpace(line) - n
  {
    PadThenRest(line, n);
    DropLeading(line, n, line[n..]);
  }

  /** A text whose first non-blank line starts with its text (or that has no
      non-blank line) is returned unchanged (specializer.py:21-29). */
  lemma UnindentFlushIsIdentity(code: string)
    requires forall k: nat :: FirstNonBlankAt(Split(code), k) ==> !IsSpace(Split(code)[k][0])
    ensures Unindented(code) == Ok(code)
  {
    var lines := Split(code);
    if exists j :: 0 <= j < |lines| && !IsBlank(lines[j]) {
      FirstNonBlankExists(lines);
      var k: nat :| FirstNonBlankAt(lines, k);
      IndentLenOfFirst(lines, k);
    } else {
      IndentLenAllBlank(lines);
    }
  }

  /** On success the result has as many lines as the input; blank lines are
      unchanged, and every non-blank line is exactly the indentation's width
      of spaces followed by its output line: nothing but those spaces is
      removed (specializer.py:13-14, 32-41). */
  lemma UnindentedLines(code: string)
    requires Unindented(code).Ok?
    ensures var lines, out := Split(code), Split(Unindented(code).value);
      |out| == |lines| &&
      forall j :: 0 <= j < |lines| ==>
        (IsBlank(lines[j]) ==> out[j] == lines[j]) &&
        (!IsBlank(lines[j]) ==> lines[j] == Repeat(' ', IndentLen(lines)) + out[j])
  {
    var lines := Split(code);
    var n := IndentLen(lines);
    if n == 0 {
      JoinSplit(code);
      forall j | 0 <= j < |lines| ensures Repeat(' ', 0) + lines[j] == lines[j] { }
    } else {
      var d := DedentAll(lines, n);
      forall j | 0 <= j < |d| ensures '\n' !in d[j] {
        if !IsBlank(lines[j]) {
          assert forall i :: 0 <= i < |d[j]| ==> d[j][i] == lines[j][n + i];
        }
      }
      SplitJoin(d);
      forall j | 0 <= j < |lines| && !IsBlank(lines[j])
        ensures lines[j] == Repeat(' ', n) + d[j]
      {
        DedentKeepsText(lines[j], n);
      }
    }
  }

  /** Shifting a line left removes only spaces, so it decodes exactly when
      the original line does. */
  lemma DedentAscii(line: string, n: nat)
    requires Indented(line, n)
    ensures IsAsciiText(Dedent(line, n)) <==> IsAsciiText(line)
  {
    var d := Dedent(line, n);
    if !IsBlank(line) {
      assert forall i :: 0 <= i < |line| ==> line[i] == if i < n then ' ' else d[i - n];
      assert forall i :: 0 <= i < |d| ==> d[i] == line[n + i];
    }
  }

  /** `unindent` fails exactly when the indentation is positive and some line
      either is non-blank without starting with that many spaces, or is not
      ASCII; a line of the first kind is reported as the first such line
      (specializer.py:30, 34-41). */
  lemma UnindentFailsIff(code: string)
    ensures var lines := Split(code); var n := IndentLen(lines);
      Unindented(code).Err? <==>
        n > 0 && exists j :: 0 <= j < |lines| && (!Indented(lines[j], n) || !IsAsciiText(lines[j]))
    ensures var lines := Split(code); var n := IndentLen(lines);
      forall k: nat :: Unindented(code) == Err(MisIndented(k)) ==>
        k < |lines| && !IsBlank(lines[k]) && !StartsWith(lines[k], Repeat(' ', n)) &&
        forall j :: 0 <= j < k ==> IsBlank(lines[j]) || StartsWith(lines[j], Repeat(' ', n))
  {
    var lines := Split(code);
    var n := IndentLen(lines);
    if n > 0 && FirstMisindented(lines, n) == |lines| {
      forall j | 0 <= j < |lines| ensures IsAsciiText(DedentAll(lines, n)[j]) <==> IsAsciiText(lines[j]) {
        DedentAscii(lines[j], n);
      }
    }
  }

  /** The `UnicodeDecodeError` is raised only once every line has passed the
      indentation check, on the first line that is not ASCII
      (specializer.py:34-41). */
  lemma UnindentUndecodable(code: string, k: nat)
    requires Unindented(code) == Err(Undecodable(k))
    ensures var lines := Split(code); var n := IndentLen(lines);
      k < |lines| && !IsAsciiText(lines[k]) &&
      (forall j :: 0 <= j < |lines| ==> IsBlank(lines[j]) || StartsWith(lines[j], Repeat(' ', n))) &&
      forall j :: 0 <= j < k ==> IsAsciiText(lines[j])
  {
    var lines := Split(code);
    var n := IndentLen(lines);
    forall j | 0 <= j < |lines| ensures IsAsciiText(DedentAll(lines, n)[j]) <==> IsAsciiText(lines[j]) {
      DedentAscii(lines[j], n);
    }
  }

  /** Indentation made of anything but spaces (a tab, say) makes the first
      non-blank line itself fail the check: `indent_pad` is built from spaces
      only, so nothing is silently cut (specializer.py:26, 30, 38). */
  lemma NonSpaceIndentFails(code: string, k: nat, i: nat)
    requires FirstNonBlankAt(Split(code), k)
    requires i < LeadingSpace(Split(code)[k]) && Split(code)[k][i] != ' '
    ensures Unindented(code) == Err(MisIndented(k))
  {
    var lines := Split(code);
    IndentLenOfFirst(lines, k);
    var n := IndentLen(lines);
    assert lines[k][i] != Repeat(' ', n)[i];
    assert !Indented(lines[k], n);
    var f := FirstMisindented(lines, n);
    assert f <= k;
  }

  /** The output is flush left, so a second `unindent` returns it unchanged. */
  lemma UnindentIdempotent(code: string)
    requires Unindented(code).Ok?
    ensures Unindented(Unindented(code).value) == Unindented(code)
  {
    var lines := Split(code);
    var n := IndentLen(lines);
    if n > 0 {
      var outText := Unindented(code).value;
      UnindentedLines(code);
      var out := Split(outText);
      if !(exists j :: 0 <= j < |lines| && !IsBlank(lines[j])) {
        IndentLenAllBlank(lines);
      }
      FirstNonBlankExists(lines);
      var k: nat :| FirstNonBlankAt(lines, k);
      IndentLenOfFirst(lines, k);
      assert Indented(lines[k], n) by {
        assert FirstMisindented(lines, n) == |lines|;
      }
      DedentKeepsText(lines[k], n);
      assert lines[k] == Repeat(' ', n) + out[k];
      assert out[k] == lines[k][n..];
      assert FirstNonBlankAt(out, k);
      IndentLenOfFirst(out, k);
      UnindentFlushIsIdentity(outText);
    }
  }

  /** A line of `n` spaces followed by text measures `n`. */
  lemma LeadingSpaceOfPadded(n: nat, t: string)
    requires t != [] && !IsSpace(t[0])
    ensures LeadingSpace(Repeat(' ', n) + t) == n
  {
    var s := Repeat(' ', n) + t;
    assert s[n] == t[0];
    assert forall i :: 0 <= i < n ==> s[i] == ' ';
    LeadingSpaceAt(s, n);
  }

  /** Two newline-free lines joined by a newline split back into the two. */
  lemma SplitTwo(l0: string, l1: string)
    requires '\n' !in l0 && '\n' !in l1
    ensures Split(l0 + "\n" + l1) == [l0, l1]
  {
    assert Join([l0, l1]) == l0 + "\n" + l1 by {
      assert [l0, l1][1..] == [l1];
    }
    SplitJoin([l0, l1]);
  }

  /** Padding a line with spaces adds no newline and keeps its text. */
  lemma PaddedLine(n: nat, t: string, l: string)
    requires l == Repeat(' ', n) + t
    ensures '\n' !in t ==> '\n' !in l
    ensures !IsBlank(t) ==> !IsBlank(l)
    ensures StartsWith(l, Repeat(' ', n)) && l[n..] == t
  {
    assert forall i :: 0 <= i < |t| ==> l[n + i] == t[i];
    assert forall i :: 0 <= i < |l| ==> l[i] == if i < n then ' ' else t[i - n];
  }

  /** Two lines indented by the same `pad` spaces pass the indentation
      check and are shifted to the two lines without it. */
  lemma DedentTwoLines(pad: nat, a: string, b: string)
    requires pad > 0 && a != [] && !IsSpace(a[0]) && !IsBlank(b)
    requires '\n' !in a && '\n' !in b
    ensures var lines := Split(Repeat(' ', pad) + a + "\n" + (Repeat(' ', pad) + b));
      IndentLen(lines) == pad && FirstMisindented(lines, pad) == |lines| && DedentAll(lines, pad) == [a, b]
  {
    var p := Repeat(' ', pad);
    var l0, l1 := p + a, p + b;
    var lines := [l0, l1];
    PaddedLine(pad, a, l0);
    PaddedLine(pad, b, l1);
    assert !IsBlank(a) by { assert !IsSpace(a[0]); }
    SplitTwo(l0, l1);
    assert IndentLen(lines) == pad by {
      LeadingSpaceOfPadded(pad, a);
      assert FirstNonBlankAt(lines, 0);
      IndentLenOfFirst(lines, 0);
    }
    assert FirstMisindented(lines, pad) == 2;
    assert DedentAll(lines, pad) == [a, b];
  }

  /** Two lines indented by the same `pad` spaces lose exactly those spaces,
      unless one of them is not ASCII: then the join raises on the first such
      line (specializer.py:32-41). */
  lemma UnindentTwoLines(pad: nat, a: string, b: string)
    requires pad > 0 && a != [] && !IsSpace(a[0]) && !IsBlank(b)
    requires '\n' !in a && '\n' !in b
    ensures Unindented(Repeat(' ', pad) + a + "\n" + (Repeat(' ', pad) + b)) ==
      if !IsAsciiText(a) then Err(Undecodable(0))
      else if !IsAsciiText(b) then Err(Undecodable(1))
      else Ok(a + "\n" + b)
  {
    DedentTwoLines(pad, a, b);
    assert Join([a, b]) == a + "\n" + b by {
      assert [a, b][1..] == [b];
    }
  }

  /** The example of the docstring (specializer.py:13-14). */
  lemma DocExample(code: string, a: string, b: string)
    requires a == "def f(x):" && b == "    return Zz"
    requires code == "        " + a + "\n" + ("        " + b)
    ensures Unindented(code) == Ok(a + "\n" + b)
  {
    assert IsAsciiText(a) && IsAsciiText(b);
    assert !IsBlank(b) by { assert !IsSpace(b[4]); }
    assert Repeat(' ', 8) == "        ";
    UnindentTwoLines(8, a, b);
  }

  /** A method whose source holds a UTF-8 comment: the lines pass the
      indentation check, and `u'\n'.join` cannot decode the first one
      (specializer.py:41). */
  lemma NonAsciiExample(code: string, a: string, b: string)
    requires a == "# \U{c3}\U{a9}" && b == "pass"
    requires code == "    " + a + "\n" + ("    " + b)
    ensures Unindented(code) == Err(Undecodable(0))
  {
    assert !IsBlank(b) by { assert !IsSpace(b[0]); }
    assert !IsAsciiText(a) by { assert !(a[2] < '\U{80}'); }
    assert Repeat(' ', 4) == "    ";
    UnindentTwoLines(4, a, b);
  }

  /** A tab-indented text is refused on its first line. */
  lemma TabExample(code: string, l0: string, l1: string)
    requires l0 == "\tdef f(x):" && l1 == "\t\treturn Zz"
    requires code == l0 + "\n" + l1
    ensures Unindented(code) == Err(MisIndented(0))
  {
    assert '\n' !in l0 && '\n' !in l1;
    SplitTwo(l0, l1);
    assert LeadingSpace(l0) == 1 by {
      LeadingSpaceAt(l0, 1);
    }
    assert FirstNonBlankAt([l0, l1], 0) by {
      assert !IsSpace(l0[1]);
    }
    NonSpaceIndentFails(code, 0, 0);
  }
}
