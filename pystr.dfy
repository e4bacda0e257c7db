/** The Python `str` built-ins that the source normalizer relies on:
    `split('\n')`, `'\n'.join`, `strip()`, `index`, `startswith` and `' ' * n`.
    The source runs on Python 2, where `str.strip()` with no argument removes
    the ASCII whitespace characters space, tab, newline, carriage return,
    vertical tab and form feed. */
module PyStr {
  import opened Wrappers

  /** The characters that `str.strip()` removes: the space, and tab, newline,
      vertical tab, form feed and carriage return, which are consecutive. */
  predicate IsSpace(c: char) {
    c == ' ' || '\t' <= c <= '\r'
  }

  /** A line whose `strip()` is the empty (falsy) string: its leading
      whitespace is the whole of it. */
  predicate IsBlank(s: string)
    ensures IsBlank(s) <==> LeadingSpace(s) == |s|
  {
    forall i :: 0 <= i < |s| ==> IsSpace(s[i])
  }

  /** The length of the run of whitespace that starts the line. */
  function LeadingSpace(s: string): (n: nat)
    ensures n <= |s|
    ensures forall i :: 0 <= i < n ==> IsSpace(s[i])
    ensures n < |s| ==> !IsSpace(s[n])
  {
    if s != [] && IsSpace(s[0]) then 1 + LeadingSpace(s[1..]) else 0
  }

  /** `s.lstrip()`: drops the leading whitespace. */
  function LStrip(s: string): (r: string)
    ensures r == s[LeadingSpace(s)..]
  {
    if s != [] && IsSpace(s[0]) then LStrip(s[1..]) else s
  }

  /** `s.rstrip()`: drops the trailing whitespace (see `RStripTrims`). */
  function RStrip(s: string): string {
    if s != [] && IsSpace(s[|s| - 1]) then RStrip(s[..|s| - 1]) else s
  }

  /** `rstrip()` keeps a prefix and removes only a run of whitespace. */
  lemma {:induction false} RStripTrims(s: string)
    ensures |RStrip(s)| <= |s| && RStrip(s) == s[..|RStrip(s)|]
    ensures IsBlank(s[|RStrip(s)|..])
    ensures RStrip(s) != [] ==> !IsSpace(RStrip(s)[|RStrip(s)| - 1])
  {
    if s != [] && IsSpace(s[|s| - 1]) {
      var t := s[..|s| - 1];
      RStripTrims(t);
      var r := RStrip(t);
      assert t[..|r|] == s[..|r|];
      forall i | |r| <= i < |s| ensures IsSpace(s[i]) {
        if i < |s| - 1 {
          assert s[i] == t[|r|..][i - |r|];
        }
      }
    }
  }

  /** `s.strip()`: the line without its leading and trailing whitespace; it is
      empty exactly when the line is blank, and otherwise starts with the
      first character that is not whitespace, which is all the normalizer
      looks at (`RStripTrims` says what the right-hand strip removes). */
  function Strip(s: string): (r: string)
    ensures r == [] <==> IsBlank(s)
    ensures r != [] ==> r[0] == s[LeadingSpace(s)]
  {
    RStripTrims(LStrip(s));
    var r := RStrip(LStrip(s));
    assert !IsBlank(s) ==> s[LeadingSpace(s)..][0] == s[LeadingSpace(s)];
    r
  }

  /** `s.index(c)`: the position of the first occurrence of `c`. The caller
      in the normalizer only asks for a character that occurs in `s`. */
  function IndexOf(s: string, c: char): (i: nat)
    requires c in s
    ensures i < |s| && s[i] == c
    ensures forall j :: 0 <= j < i ==> s[j] != c
  {
    if s[0] == c then 0 else 1 + IndexOf(s[1..], c)
  }

  /** `s.startswith(p)`: `s` is `p` followed by the rest of `s`. */
  predicate StartsWith(s: string, p: string)
    ensures StartsWith(s, p) <==> |p| <= |s| && s == p + s[|p|..]
  {
    |p| <= |s| && s[..|p|] == p
  }

  /** `c * n` for a one-character string `c`. */
  function Repeat(c: char, n: nat): (r: string)
    ensures |r| == n
    ensures forall i :: 0 <= i < n ==> r[i] == c
  {
    if n == 0 then "" else [c] + Repeat(c, n - 1)
  }

  /** `s.split('\n')`: the pieces between the newlines, always at least one. */
  function Split(s: string): (lines: seq<string>)
    ensures |lines| >= 1
    ensures forall i :: 0 <= i < |lines| ==> '\n' !in lines[i]
    decreases |s|
  {
    if '\n' !in s then [s]
    else
      var i := IndexOf(s, '\n');
      assert '\n' !in s[..i];
      [s[..i]] + Split(s[i + 1..])
  }

  /** `'\n'.join(lines)`; `Split` undoes it (`SplitJoin`). */
  function Join(lines: seq<string>): string {
    if |lines| == 0 then ""
    else if |lines| == 1 then lines[0]
    else lines[0] + "\n" + Join(lines[1..])
  }

  /** Python 2 decodes a `str` with the ASCII codec when it meets a
      `unicode` string: every character must be below 0x80. */
  predicate IsAsciiText(s: string) {
    forall i :: 0 <= i < |s| ==> s[i] < '\U{80}'
  }

  /** The first line that the ASCII codec cannot decode, or `|lines|`. */
  function FirstUndecodable(lines: seq<string>): (k: nat)
    ensures k <= |lines|
    ensures forall j :: 0 <= j < k ==> IsAsciiText(lines[j])
    ensures k < |lines| ==> !IsAsciiText(lines[k])
  {
    if lines == [] then 0
    else if !IsAsciiText(lines[0]) then 0
    else 1 + FirstUndecodable(lines[1..])
  }

  /** `u'\n'.join(lines)` on a list of `str` lines: each line is decoded
      before it is joined, so the join succeeds exactly when every line is
      ASCII, and otherwise raises `UnicodeDecodeError` on the first line that
      is not (given here by its index). */
  function UnicodeJoin(lines: seq<string>): (r: Result<string, nat>)
    ensures r.Ok? <==> forall j :: 0 <= j < |lines| ==> IsAsciiText(lines[j])
    ensures r.Ok? ==> r.value == Join(lines)
    ensures r.Err? ==>
      r.error < |lines| && !IsAsciiText(lines[r.error]) && forall j :: 0 <= j < r.error ==> IsAsciiText(lines[j])
  {
    var k := FirstUndecodable(lines);
    if k < |lines| then Err(k) else Ok(Join(lines))
  }

  /** Joining the pieces of a split gives the text back. */
  lemma {:induction false} JoinSplit(s: string)
    ensures Join(Split(s)) == s
    decreases |s|
  {
    if '\n' in s {
      var i := IndexOf(s, '\n');
      var rest := Split(s[i + 1..]);
      JoinSplit(s[i + 1..]);
      assert ([s[..i]] + rest)[1..] == rest;
      assert Join(Split(s)) == s[..i] + "\n" + s[i + 1..];
      assert s == s[..i] + [s[i]] + s[i + 1..];
    }
  }

  /** Splitting the join of newline-free lines gives the lines back. */
  lemma {:induction false} SplitJoin(lines: seq<string>)
    requires |lines| >= 1
    requires forall i :: 0 <= i < |lines| ==> '\n' !in lines[i]
    ensures Split(Join(lines)) == lines
  {
    if |lines| > 1 {
      var l, j := lines[0], Join(lines[1..]);
      var s := l + "\n" + j;
      assert Join(lines) == s;
      assert IndexOf(s, '\n') == |l| by {
        assert s[|l|] == '\n';
        assert forall k :: 0 <= k < |l| ==> s[k] == l[k];
      }
      assert s[..|l|] == l;
      assert s[|l| + 1..] == j;
      assert Split(s) == [l] + Split(j);
      SplitJoin(lines[1..]);
    }
  }
}
