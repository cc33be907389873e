/**
 * The string operations the nodes apply: splitting on a separator,
 * JavaScript's `trim`, the last path segment of a URL, and the rewrite of a
 * file name's final extension.
 */
module Text {

  // ---------------------------------------------------------------------
  // Splitting a text into lines and joining it back
  // ---------------------------------------------------------------------

  /** `s.split('\n')`: the pieces between newline characters, never an empty list. */
  function SplitLines(s: string): (lines: seq<string>)
    ensures |lines| >= 1
    ensures forall i :: 0 <= i < |lines| ==> '\n' !in lines[i]
    decreases |s|
  {
    if s == [] then [""]
    else
      var init := SplitLines(s[..|s| - 1]);
      var c := s[|s| - 1];
      if c == '\n' then init + [""]
      else init[..|init| - 1] + [init[|init| - 1] + [c]]
  }

  /** `lines.join('\n')`. */
  function JoinLines(lines: seq<string>): string
    requires |lines| >= 1
    decreases |lines|
  {
    if |lines| == 1 then lines[0]
    else JoinLines(lines[..|lines| - 1]) + "\n" + lines[|lines| - 1]
  }

  lemma JoinLinesAppendChar(lines: seq<string>, c: char)
    requires |lines| >= 1
    ensures JoinLines(lines[..|lines| - 1] + [lines[|lines| - 1] + [c]]) == JoinLines(lines) + [c]
  {
    var last := lines[|lines| - 1];
    var lines' := lines[..|lines| - 1] + [last + [c]];
    if |lines| > 1 {
      assert lines'[..|lines'| - 1] == lines[..|lines| - 1];
    }
  }

  /** Splitting loses nothing: the lines joined back give the text. */
  lemma {:induction false} SplitThenJoin(s: string)
    ensures JoinLines(SplitLines(s)) == s
    decreases |s|
  {
    if s != [] {
      var init := SplitLines(s[..|s| - 1]);
      SplitThenJoin(s[..|s| - 1]);
      var c := s[|s| - 1];
      if c == '\n' {
        assert (init + [""])[..|init|] == init;
      } else {
        JoinLinesAppendChar(init, c);
      }
      assert s[..|s| - 1] + [c] == s;
    }
  }

  lemma {:induction false} SplitAfterNewline(s: string, line: string)
    requires '\n' !in line
    ensures SplitLines(s + "\n" + line) == SplitLines(s) + [line]
    decreases |line|
  {
    var t := s + "\n" + line;
    if line == [] {
      assert t == s + ['\n'];
      assert t[..|t| - 1] == s;
    } else {
      var init := line[..|line| - 1];
      var c := line[|line| - 1];
      assert c != '\n';
      assert t[..|t| - 1] == s + "\n" + init;
      assert t[|t| - 1] == c;
      SplitAfterNewline(s, init);
      var prev := SplitLines(s) + [init];
      assert SplitLines(t) == prev[..|prev| - 1] + [prev[|prev| - 1] + [c]];
      assert prev[..|prev| - 1] == SplitLines(s);
      assert init + [c] == line;
    }
  }

  lemma {:induction false} SplitOneLine(line: string)
    requires forall j :: 0 <= j < |line| ==> line[j] != '\n'
    ensures SplitLines(line) == [line]
    decreases |line|
  {
    if line != [] {
      var init := line[..|line| - 1];
      var c := line[|line| - 1];
      SplitOneLine(init);
      assert SplitLines(line) == [init + [c]];
      assert init + [c] == line;
    }
  }

  /** Joining lines that hold no newline and splitting again gives the same lines. */
  lemma {:induction false} JoinThenSplit(lines: seq<string>)
    requires |lines| >= 1
    requires forall i :: 0 <= i < |lines| ==> '\n' !in lines[i]
    ensures SplitLines(JoinLines(lines)) == lines
    decreases |lines|
  {
    if |lines| == 1 {
      SplitOneLine(lines[0]);
    } else {
      var init := lines[..|lines| - 1];
      JoinThenSplit(init);
      SplitAfterNewline(JoinLines(init), lines[|lines| - 1]);
      assert init + [lines[|lines| - 1]] == lines;
    }
  }

  // ---------------------------------------------------------------------
  // JavaScript's String.prototype.trim
  // ---------------------------------------------------------------------

  /** The characters `trim` removes: ECMAScript white space and line terminators. */
  predicate IsWhitespace(c: char)
  {
    c == '\t' || c == '\n' || c == '\U{000B}' || c == '\U{000C}' || c == '\r' || c == ' '
    || c == '\U{00A0}' || c == '\U{1680}' || ('\U{2000}' <= c <= '\U{200A}')
    || c == '\U{2028}' || c == '\U{2029}' || c == '\U{202F}' || c == '\U{205F}'
    || c == '\U{3000}' || c == '\U{FEFF}'
  }

  /** Every character of `s` is white space. */
  predicate Blank(s: string)
  {
    forall i :: 0 <= i < |s| ==> IsWhitespace(s[i])
  }

  function TrimStart(s: string): (r: string)
    ensures |r| <= |s| && r == s[|s| - |r|..]
    ensures Blank(s[..|s| - |r|])
    ensures r != [] ==> !IsWhitespace(r[0])
    decreases |s|
  {
    if s != [] && IsWhitespace(s[0]) then
      var r := TrimStart(s[1..]);
      assert s[1..][..|s[1..]| - |r|] == s[1..|s| - |r|];
      r
    else s
  }

  function TrimEnd(s: string): (r: string)
    ensures |r| <= |s| && r == s[..|r|]
    ensures Blank(s[|r|..])
    ensures r != [] ==> !IsWhitespace(r[|r| - 1])
    decreases |s|
  {
    if s != [] && IsWhitespace(s[|s| - 1]) then
      var init := s[..|s| - 1];
      var r := TrimEnd(init);
      assert s[|r|..] == init[|r|..] + [s[|s| - 1]];
      r
    else s
  }

  /** `s.trim()`: `s` without its leading and trailing white space. */
  function Trim(s: string): (r: string)
    ensures r == [] <==> Blank(s)
  {
    var t := TrimStart(s);
    var r := TrimEnd(t);
    assert s == s[..|s| - |t|] + t;
    assert r == [] ==> Blank(t) by {
      if r == [] { assert t == t[|r|..]; }
    }
    assert r != [] ==> !Blank(s) by {
      if r != [] { assert r[0] == s[|s| - |t|]; }
    }
    r
  }

  /**
   * `lines.filter(l => l.trim())`: the lines whose trimmed form is not empty
   * (by the contract of `Trim`, those that are not `Blank`), untrimmed, in
   * order.
   */
  function NonBlank(lines: seq<string>): (kept: seq<string>)
    ensures |kept| <= |lines|
    ensures forall i :: 0 <= i < |kept| ==> !Blank(kept[i])
    decreases |lines|
  {
    if lines == [] then []
    else
      var init := lines[..|lines| - 1];
      var last := lines[|lines| - 1];
      if !Blank(last) then NonBlank(init) + [last] else NonBlank(init)
  }

  /** No line that is not blank is dropped. */
  lemma {:induction false} NonBlankKeeps(lines: seq<string>, i: nat)
    requires i < |lines| && !Blank(lines[i])
    ensures lines[i] in NonBlank(lines)
    decreases |lines|
  {
    if i < |lines| - 1 {
      var init := lines[..|lines| - 1];
      assert init[i] == lines[i];
      NonBlankKeeps(init, i);
    }
  }

  /** Filtering distributes over concatenation, so the order of the kept lines is the input order. */
  lemma {:induction false} NonBlankAppend(a: seq<string>, b: seq<string>)
    ensures NonBlank(a + b) == NonBlank(a) + NonBlank(b)
    decreases |b|
  {
    if b == [] {
      assert a + b == a;
    } else {
      var b' := b[..|b| - 1];
      var last := b[|b| - 1];
      NonBlankAppend(a, b');
      assert a + b == (a + b') + [last];
      NonBlankSnoc(a + b', last);
      assert b' + [last] == b;
      NonBlankSnoc(b', last);
    }
  }

  lemma NonBlankSnoc(lines: seq<string>, last: string)
    ensures NonBlank(lines + [last]) == NonBlank(lines) + (if !Blank(last) then [last] else [])
  {
    assert (lines + [last])[..|lines|] == lines;
  }

  // ---------------------------------------------------------------------
  // The last segment of a slash-separated path
  // ---------------------------------------------------------------------

  /** `s.split('/').pop()`: the text after the last `/`, or all of `s` when it has none. */
  function LastSegment(s: string): (r: string)
    ensures |r| <= |s| && r == s[|s| - |r|..]
    ensures '/' !in r
    ensures |r| < |s| ==> s[|s| - |r| - 1] == '/'
    decreases |s|
  {
    if s == [] || s[|s| - 1] == '/' then []
    else
      var r := LastSegment(s[..|s| - 1]);
      r + [s[|s| - 1]]
  }

  // ---------------------------------------------------------------------
  // The final extension of a file name
  // ---------------------------------------------------------------------

  /**
   * The regular expression `/\.[^/.]+$/` matches at `p`: a dot followed by
   * one or more characters, none of them a slash or a dot, up to the end.
   */
  predicate ExtensionAt(name: string, p: int)
  {
    0 <= p && p + 1 < |name| && name[p] == '.'
    && forall j :: p < j < |name| ==> name[j] != '/' && name[j] != '.'
  }

  /** The start of the longest suffix holding neither a slash nor a dot. */
  function PlainSuffixStart(s: string): (k: nat)
    ensures k <= |s|
    ensures forall j :: k <= j < |s| ==> s[j] != '/' && s[j] != '.'
    ensures k > 0 ==> s[k - 1] == '/' || s[k - 1] == '.'
    decreases |s|
  {
    if s == [] then 0
    else if s[|s| - 1] == '/' || s[|s| - 1] == '.' then |s|
    else PlainSuffixStart(s[..|s| - 1])
  }

  /**
   * `name.replace(/\.[^/.]+$/, '.' + ext)`: a final extension is replaced by
   * `ext`; a name without one is returned as it is.
   */
  function ReplaceExtension(name: string, ext: string): (r: string)
    ensures forall p :: ExtensionAt(name, p) ==> r == name[..p] + "." + ext
    ensures (forall p :: !ExtensionAt(name, p)) ==> r == name
  {
    var k := PlainSuffixStart(name);
    if 0 < k < |name| && name[k - 1] == '.' then
      assert ExtensionAt(name, k - 1);
      assert forall p :: ExtensionAt(name, p) ==> p == k - 1;
      name[..k - 1] + "." + ext
    else
      assert forall p :: !ExtensionAt(name, p);
      name
  }
}
