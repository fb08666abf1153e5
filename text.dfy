/** The parts of Python's `str` methods and `re` character classes that both parsers rely on. */
module Text {

  /** `str.isspace()`, which is also the set that `\s` matches in a `str` pattern. */
  predicate IsSpace(c: char) {
    var n := c as int;
    (9 <= n <= 13) || (28 <= n <= 32) || n == 0x85 || n == 0xA0 || n == 0x1680
    || (0x2000 <= n <= 0x200A) || n == 0x2028 || n == 0x2029 || n == 0x202F
    || n == 0x205F || n == 0x3000
  }

  /** `\d`, restricted to the ASCII digits. */
  predicate IsDigit(c: char) {
    '0' <= c <= '9'
  }

  /** `\w`, restricted to ASCII: letters, digits and the underscore. */
  predicate IsWordChar(c: char) {
    ('a' <= c <= 'z') || ('A' <= c <= 'Z') || IsDigit(c) || c == '_'
  }

  predicate AllSpace(s: string) {
    forall i :: 0 <= i < |s| ==> IsSpace(s[i])
  }

  predicate AllWord(s: string) {
    forall i :: 0 <= i < |s| ==> IsWordChar(s[i])
  }

  predicate AllDigits(s: string) {
    forall i :: 0 <= i < |s| ==> IsDigit(s[i])
  }

  /** Neither end of `s` is whitespace: the shape `strip()` leaves behind. */
  predicate IsStripped(s: string) {
    s == [] || (!IsSpace(s[0]) && !IsSpace(s[|s| - 1]))
  }

  predicate StartsWith(s: string, prefix: string) {
    |prefix| <= |s| && s[..|prefix|] == prefix
  }

  /** Python's `sub in s` on two strings. */
  predicate Contains(s: string, sub: string) {
    StartsWith(s, sub) || (s != [] && Contains(s[1..], sub))
  }

  /** Length of the longest all-whitespace prefix: what a greedy `\s*` consumes. */
  function SpaceSpan(s: string): (n: nat)
    ensures n <= |s| && AllSpace(s[..n])
    ensures n < |s| ==> !IsSpace(s[n])
  {
    if s != [] && IsSpace(s[0]) then
      var n := 1 + SpaceSpan(s[1..]);
      assert forall i :: 1 <= i < n ==> s[..n][i] == s[1..][..n - 1][i - 1];
      n
    else 0
  }

  /** Length of the longest all-word-character prefix: what a greedy `\w+` consumes. */
  function WordSpan(s: string): (n: nat)
    ensures n <= |s| && AllWord(s[..n])
    ensures n < |s| ==> !IsWordChar(s[n])
  {
    if s != [] && IsWordChar(s[0]) then
      var n := 1 + WordSpan(s[1..]);
      assert forall i :: 1 <= i < n ==> s[..n][i] == s[1..][..n - 1][i - 1];
      n
    else 0
  }

  /** Length of the longest all-whitespace suffix. */
  function TrailingSpaceSpan(s: string): (n: nat)
    ensures n <= |s| && AllSpace(s[|s| - n..])
    ensures n < |s| ==> !IsSpace(s[|s| - n - 1])
  {
    if s != [] && IsSpace(s[|s| - 1]) then
      var init := s[..|s| - 1];
      var m := TrailingSpaceSpan(init);
      assert s[|s| - (m + 1)..] == init[|init| - m..] + [s[|s| - 1]];
      m + 1
    else 0
  }

  /** What is left after a greedy `\s*`. */
  function SkipSpace(s: string): string {
    s[SpaceSpan(s)..]
  }

  /** Python's `str.strip()`. */
  function Strip(s: string): (r: string)
    ensures IsStripped(r)
    ensures r == [] <==> AllSpace(s)
    ensures forall k :: 0 <= k < |r| ==> r[k] in s
    ensures exists i, j :: 0 <= i <= j <= |s| && r == s[i..j] && AllSpace(s[..i]) && AllSpace(s[j..])
  {
    var k := SpaceSpan(s);
    var t := s[k..];
    var n := TrailingSpaceSpan(t);
    var r := t[..|t| - n];
    assert t != [] ==> t[0] == s[k] && !IsSpace(t[0]);
    assert n == |t| ==> t[|t| - n..] == t;
    assert k == |s| ==> s[..k] == s;
    var j := k + |t| - n;
    assert r == s[k..j];
    assert s[j..] == t[|t| - n..];
    r
  }

  function LowerChar(c: char): char {
    if 'A' <= c <= 'Z' then (c as int + 32) as char else c
  }

  /** Python's `str.lower()`, on ASCII letters: no capital is left, and every other character stays. */
  function Lower(s: string): (r: string)
    ensures |r| == |s|
    ensures forall i :: 0 <= i < |s| ==> r[i] == LowerChar(s[i])
    ensures forall i :: 0 <= i < |r| ==> !('A' <= r[i] <= 'Z')
    ensures forall i :: 0 <= i < |s| && !('A' <= s[i] <= 'Z') ==> r[i] == s[i]
    ensures forall i :: 0 <= i < |s| && 'A' <= s[i] <= 'Z' ==> r[i] as int == s[i] as int + 32
  {
    seq(|s|, i requires 0 <= i < |s| => LowerChar(s[i]))
  }

  /** Python's `s.split("\n")`: the pieces between newlines, always at least one. */
  function Split(s: string): (r: seq<string>)
    ensures |r| >= 1
    ensures forall i :: 0 <= i < |r| ==> '\n' !in r[i]
  {
    if s == [] then [[]]
    else
      var rest := Split(s[1..]);
      if s[0] == '\n' then [[]] + rest else [[s[0]] + rest[0]] + rest[1..]
  }

  /** `"\n".join(lines)`: the first line, then a newline before each further line. */
  function Join(lines: seq<string>): (r: string)
    ensures |lines| >= 1 ==> StartsWith(r, lines[0])
    ensures |lines| >= 2 ==> |r| > |lines[0]| && r[|lines[0]|] == '\n'
  {
    if |lines| == 0 then []
    else if |lines| == 1 then lines[0]
    else lines[0] + "\n" + Join(lines[1..])
  }

  /** `[p.strip() for p in pieces if p.strip()]`. */
  function NonBlankLines(pieces: seq<string>): (r: seq<string>)
    ensures |r| <= |pieces|
    ensures forall i :: 0 <= i < |r| ==> r[i] != [] && IsStripped(r[i])
    ensures (forall i :: 0 <= i < |pieces| ==> '\n' !in pieces[i]) ==>
              forall i :: 0 <= i < |r| ==> '\n' !in r[i]
  {
    if pieces == [] then []
    else
      var line := Strip(pieces[0]);
      (if line == [] then [] else [line]) + NonBlankLines(pieces[1..])
  }

  /** The pieces at these positions are the ones that are not all whitespace, in order. */
  predicate ListsNonBlank(pieces: seq<string>, idx: seq<nat>) {
    PointsAtNonBlank(pieces, idx) && Increasing(idx) && CoversNonBlank(pieces, idx)
  }

  predicate PointsAtNonBlank(pieces: seq<string>, idx: seq<nat>) {
    forall k :: 0 <= k < |idx| ==> idx[k] < |pieces| && !AllSpace(pieces[idx[k]])
  }

  predicate Increasing(idx: seq<nat>) {
    forall k, l :: 0 <= k < l < |idx| ==> idx[k] < idx[l]
  }

  predicate CoversNonBlank(pieces: seq<string>, idx: seq<nat>) {
    forall j :: 0 <= j < |pieces| && !AllSpace(pieces[j]) ==> j in idx
  }

  /** Every position moved one further on. */
  function Shift(idx: seq<nat>): (r: seq<nat>)
    ensures |r| == |idx|
    ensures forall k :: 0 <= k < |r| ==> r[k] == idx[k] + 1
  {
    seq(|idx|, k requires 0 <= k < |idx| => idx[k] + 1)
  }

  /** The first position, if its piece is not blank, then the tail's positions shifted. */
  function ConsIndices(pieces: seq<string>, rest: seq<nat>): seq<nat>
    requires pieces != []
  {
    (if AllSpace(pieces[0]) then [] else [0]) + Shift(rest)
  }

  lemma PointsAtNonBlankStep(pieces: seq<string>, rest: seq<nat>)
    requires pieces != [] && PointsAtNonBlank(pieces[1..], rest)
    ensures PointsAtNonBlank(pieces, ConsIndices(pieces, rest))
  {
    var idx := ConsIndices(pieces, rest);
    var h := |idx| - |rest|;
    forall k | 0 <= k < |idx|
      ensures idx[k] < |pieces| && !AllSpace(pieces[idx[k]])
    {
      if k >= h {
        assert idx[k] == rest[k - h] + 1;
        assert pieces[idx[k]] == pieces[1..][rest[k - h]];
      }
    }
  }

  lemma IncreasingStep(pieces: seq<string>, rest: seq<nat>)
    requires pieces != [] && Increasing(rest)
    ensures Increasing(ConsIndices(pieces, rest))
  {
    var idx := ConsIndices(pieces, rest);
    var h := |idx| - |rest|;
    forall k, l | 0 <= k < l < |idx|
      ensures idx[k] < idx[l]
    {
      if k >= h {
        assert idx[k] == rest[k - h] + 1;
      }
      assert idx[l] == rest[l - h] + 1;
    }
  }

  lemma CoversNonBlankStep(pieces: seq<string>, rest: seq<nat>)
    requires pieces != [] && CoversNonBlank(pieces[1..], rest)
    ensures CoversNonBlank(pieces, ConsIndices(pieces, rest))
  {
    var idx := ConsIndices(pieces, rest);
    var h := |idx| - |rest|;
    forall j | 0 <= j < |pieces| && !AllSpace(pieces[j])
      ensures j in idx
    {
      if j == 0 {
        assert idx[0] == 0;
      } else {
        assert pieces[j] == pieces[1..][j - 1];
        var k :| 0 <= k < |rest| && rest[k] == j - 1;
        assert idx[h + k] == j;
      }
    }
  }

  /** The positions of the pieces that are not all whitespace, in order. */
  function NonBlankIndices(pieces: seq<string>): (idx: seq<nat>)
    ensures ListsNonBlank(pieces, idx)
  {
    if pieces == [] then []
    else
      var rest := NonBlankIndices(pieces[1..]);
      PointsAtNonBlankStep(pieces, rest);
      IncreasingStep(pieces, rest);
      CoversNonBlankStep(pieces, rest);
      ConsIndices(pieces, rest)
  }

  /** One step of the selection: the head line, if kept, sits at position 0. */
  lemma SelectStep(pieces: seq<string>, lines: seq<string>, rest: seq<nat>)
    requires pieces != [] && |lines| == |rest|
    requires forall k :: 0 <= k < |rest| ==> rest[k] < |pieces| - 1 && lines[k] == Strip(pieces[1..][rest[k]])
    ensures var all := (if Strip(pieces[0]) == [] then [] else [Strip(pieces[0])]) + lines;
            var idx := ConsIndices(pieces, rest);
            |all| == |idx| && forall k :: 0 <= k < |idx| ==> idx[k] < |pieces| && all[k] == Strip(pieces[idx[k]])
  {
    var tail := pieces[1..];
    var shifted := Shift(rest);
    forall k | 0 <= k < |rest|
      ensures shifted[k] < |pieces| && lines[k] == Strip(pieces[shifted[k]])
    {
      assert pieces[shifted[k]] == tail[rest[k]];
    }
    if AllSpace(pieces[0]) {
      assert ConsIndices(pieces, rest) == shifted;
    } else {
      var idx := [0] + shifted;
      var all := [Strip(pieces[0])] + lines;
      assert ConsIndices(pieces, rest) == idx;
      forall k | 0 <= k < |idx|
        ensures idx[k] < |pieces| && all[k] == Strip(pieces[idx[k]])
      {
        if k > 0 {
          assert idx[k] == shifted[k - 1] && all[k] == lines[k - 1];
        }
      }
    }
  }

  /**
   * The kept lines are exactly the stripped forms of the non-blank pieces, in
   * their order: the k-th line is the piece at the k-th non-blank position.
   */
  lemma {:induction false} NonBlankLinesSelect(pieces: seq<string>)
    ensures |NonBlankLines(pieces)| == |NonBlankIndices(pieces)|
    ensures forall k :: 0 <= k < |NonBlankIndices(pieces)| ==>
              NonBlankLines(pieces)[k] == Strip(pieces[NonBlankIndices(pieces)[k]])
  {
    if pieces != [] {
      NonBlankLinesSelect(pieces[1..]);
      SelectStep(pieces, NonBlankLines(pieces[1..]), NonBlankIndices(pieces[1..]));
    }
  }

  // ---------------------------------------------------------------------------
  // Facts about the helpers above.
  // ---------------------------------------------------------------------------

  lemma {:induction false} SpaceSpanOfConcat(ws: string, t: string)
    requires AllSpace(ws)
    requires t == [] || !IsSpace(t[0])
    ensures SpaceSpan(ws + t) == |ws|
  {
    if ws == [] {
      assert ws + t == t;
    } else {
      assert (ws + t)[1..] == ws[1..] + t;
      SpaceSpanOfConcat(ws[1..], t);
    }
  }

  /** A greedy `\s*` stops at the first non-blank. */
  lemma {:induction false} SpaceSpanAtMost(s: string, i: nat)
    requires i < |s| && !IsSpace(s[i])
    ensures SpaceSpan(s) <= i
  {
    if i > 0 && IsSpace(s[0]) {
      assert s[1..][i - 1] == s[i];
      SpaceSpanAtMost(s[1..], i - 1);
    }
  }

  lemma SkipSpaceOfConcat(ws: string, t: string)
    requires AllSpace(ws)
    requires t == [] || !IsSpace(t[0])
    ensures SkipSpace(ws + t) == t
  {
    SpaceSpanOfConcat(ws, t);
    assert (ws + t)[|ws|..] == t;
  }

  /** A string that starts with `prefix` is `prefix` followed by the rest. */
  lemma PrefixSplit(s: string, prefix: string)
    requires StartsWith(s, prefix)
    ensures s == prefix + s[|prefix|..]
  {
    assert s == s[..|prefix|] + s[|prefix|..];
  }

  lemma PrefixDrop(prefix: string, t: string)
    ensures StartsWith(prefix + t, prefix) && (prefix + t)[|prefix|..] == t
  {
  }

  /** `s` cut around its character at `k`. */
  lemma CharSplit(s: string, k: nat, c: char)
    requires k < |s| && s[k] == c
    ensures s == s[..k] + ([c] + s[k + 1..])
  {
    assert s == s[..k] + s[k..];
    assert s[k..] == [c] + s[k + 1..];
  }

  lemma CharDrop(w: string, c: char, t: string)
    ensures (w + ([c] + t))[|w|] == c
    ensures (w + ([c] + t))[..|w|] == w && (w + ([c] + t))[|w| + 1..] == t
  {
  }

  /** `s` cut where a greedy `\s*` stops. */
  lemma SkipSpaceSplit(s: string) returns (ws: string, rest: string)
    ensures AllSpace(ws) && rest == SkipSpace(s) && s == ws + rest
    ensures rest == [] || !IsSpace(rest[0])
  {
    ws, rest := s[..SpaceSpan(s)], SkipSpace(s);
    assert s == ws + rest;
  }

  lemma {:induction false} WordSpanOfConcat(w: string, t: string)
    requires AllWord(w)
    requires t == [] || !IsWordChar(t[0])
    ensures WordSpan(w + t) == |w|
  {
    if w == [] {
      assert w + t == t;
    } else {
      assert (w + t)[1..] == w[1..] + t;
      WordSpanOfConcat(w[1..], t);
    }
  }

  lemma StripOfStripped(s: string)
    requires IsStripped(s)
    ensures Strip(s) == s
  {
    if s != [] {
      assert SpaceSpan(s) == 0;
      assert TrailingSpaceSpan(s) == 0;
    }
  }

  lemma {:induction false} SplitPrefix(a: string, t: string)
    requires '\n' !in a
    ensures Split(a + t) == [a + Split(t)[0]] + Split(t)[1..]
  {
    if a != [] {
      assert (a + t)[1..] == a[1..] + t;
      SplitPrefix(a[1..], t);
      assert [a[0]] + (a[1..] + Split(t)[0]) == a + Split(t)[0];
    } else {
      assert a + t == t;
      assert a + Split(t)[0] == Split(t)[0];
      assert [Split(t)[0]] + Split(t)[1..] == Split(t);
    }
  }

  lemma {:induction false} SplitJoin(lines: seq<string>)
    requires |lines| >= 1
    requires forall i :: 0 <= i < |lines| ==> '\n' !in lines[i]
    ensures Split(Join(lines)) == lines
  {
    if |lines| == 1 {
      SplitPrefix(lines[0], []);
      assert lines[0] + [] == lines[0];
    } else {
      var rest := Join(lines[1..]);
      SplitJoin(lines[1..]);
      assert Join(lines) == lines[0] + ("\n" + rest);
      SplitPrefix(lines[0], "\n" + rest);
      assert ("\n" + rest)[1..] == rest;
      assert Split("\n" + rest) == [[]] + Split(rest);
      assert lines[0] + [] == lines[0];
      assert lines == [lines[0]] + lines[1..];
    }
  }

  /** Joining the pieces of a split gives back the text. */
  lemma {:induction false} JoinSplit(s: string)
    ensures Join(Split(s)) == s
  {
    if s != [] {
      var rest := Split(s[1..]);
      JoinSplit(s[1..]);
      if s[0] == '\n' {
        assert ([[]] + rest)[1..] == rest;
        assert s == [] + "\n" + s[1..];
      } else {
        var r := [[s[0]] + rest[0]] + rest[1..];
        assert s == [s[0]] + s[1..];
        if |rest| > 1 {
          assert r[1..] == rest[1..];
          assert Join(rest) == rest[0] + "\n" + Join(rest[1..]);
          assert Join(r) == ([s[0]] + rest[0]) + "\n" + Join(rest[1..]);
        }
      }
    }
  }

  lemma {:induction false} NonBlankLinesOfStripped(lines: seq<string>)
    requires forall i :: 0 <= i < |lines| ==> lines[i] != [] && IsStripped(lines[i])
    ensures NonBlankLines(lines) == lines
  {
    if lines != [] {
      StripOfStripped(lines[0]);
      NonBlankLinesOfStripped(lines[1..]);
      assert lines == [lines[0]] + lines[1..];
    }
  }

  lemma {:induction false} JoinStripped(lines: seq<string>)
    requires |lines| >= 1
    requires forall i :: 0 <= i < |lines| ==> lines[i] != [] && IsStripped(lines[i])
    ensures Join(lines) != [] && IsStripped(Join(lines))
    ensures Join(lines)[0] == lines[0][0]
  {
    if |lines| > 1 {
      JoinStripped(lines[1..]);
      var rest := Join(lines[1..]);
      var s := lines[0] + "\n" + rest;
      assert s[|s| - 1] == rest[|rest| - 1];
      assert s[0] == lines[0][0];
    }
  }
}
