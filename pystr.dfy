/**
 Models of the Python `str` operations the scraper relies on: `isspace`,
 `splitlines`, `strip`, `split("  ")` and `join`. A `string` holds Unicode
 scalar values: the code points of a Python `str` other than the lone
 surrogates U+D800 to U+DFFF, which a `char` cannot hold.
 */
module PyStr {

  /** `c.isspace()`: the characters Python classifies as whitespace. */
  predicate IsSpace(c: char) {
    var n := c as int;
    n == 0x20 || 0x09 <= n <= 0x0D || 0x1C <= n <= 0x1F || n == 0x85 || n == 0xA0
    || n == 0x1680 || 0x2000 <= n <= 0x200A || n == 0x2028 || n == 0x2029
    || n == 0x202F || n == 0x205F || n == 0x3000
  }

  /** The line boundaries `str.splitlines` recognises; every one of them is whitespace. */
  predicate IsLineBreak(c: char)
    ensures IsLineBreak(c) ==> IsSpace(c)
  {
    var n := c as int;
    0x0A <= n <= 0x0D || 0x1C <= n <= 0x1E || n == 0x85 || n == 0x2028 || n == 0x2029
  }

  /** The ASCII whitespace of `str.isspace`: the space, `\t`, `\n`, `\v`, `\f`, `\r` and the separators U+001C to U+001F. */
  const AsciiSpace: set<char> := {' ', '\t', '\n', '\U{0B}', '\U{0C}', '\r', '\U{1C}', '\U{1D}', '\U{1E}', '\U{1F}'}

  /** Among ASCII characters, `isspace` holds exactly for `AsciiSpace`. */
  lemma {:induction false} AsciiWhitespace(c: char)
    requires c as int < 0x80
    ensures IsSpace(c) <==> c in AsciiSpace
  {
  }

  predicate NoLineBreak(s: string) {
    forall i :: 0 <= i < |s| ==> !IsLineBreak(s[i])
  }

  predicate AllSpace(s: string) {
    forall i :: 0 <= i < |s| ==> IsSpace(s[i])
  }

  /** No two consecutive U+0020 spaces. */
  predicate NoDoubleSpace(s: string) {
    forall i :: 0 <= i < |s| - 1 ==> !(s[i] == ' ' && s[i + 1] == ' ')
  }

  /** `"".join(parts)` */
  function Concat(parts: seq<string>): string {
    if parts == [] then "" else parts[0] + Concat(parts[1..])
  }

  /** `sep.join(parts)` */
  function Join(sep: string, parts: seq<string>): (r: string)
    // With an empty separator, a join is the plain concatenation of its parts.
    ensures sep == "" ==> r == Concat(parts)
  {
    if |parts| == 0 then ""
    else if |parts| == 1 then parts[0]
    else parts[0] + sep + Join(sep, parts[1..])
  }

  // ---------------------------------------------------------------- splitlines

  /** Index of the first line break of `s`, or `|s|` when it has none. */
  function LineEnd(s: string): (i: nat)
    ensures i <= |s|
    ensures i < |s| ==> IsLineBreak(s[i])
  {
    LineEndFrom(s, 0)
  }

  function LineEndFrom(s: string, k: nat): (i: nat)
    requires k <= |s|
    ensures k <= i <= |s|
    ensures i < |s| ==> IsLineBreak(s[i])
    decreases |s| - k
  {
    if k == |s| || IsLineBreak(s[k]) then k else LineEndFrom(s, k + 1)
  }

  /** No line break comes before `LineEnd(s)`. */
  lemma {:induction false} LineEndFirst(s: string)
    ensures NoLineBreak(s[..LineEnd(s)])
  {
    var i := LineEnd(s);
    LineEndFromClear(s, 0);
    assert forall j :: 0 <= j < i ==> s[..i][j] == s[j];
  }

  lemma {:induction false} LineEndFromClear(s: string, k: nat)
    requires k <= |s|
    ensures forall j :: k <= j < LineEndFrom(s, k) ==> !IsLineBreak(s[j])
    decreases |s| - k
  {
    if k < |s| && !IsLineBreak(s[k]) {
      LineEndFromClear(s, k + 1);
    }
  }

  /** How many characters the line break at `i` spans: `\r\n` is one boundary of two. */
  function BreakWidth(s: string, i: nat): (w: nat)
    requires i < |s|
    ensures 1 <= w && i + w <= |s|
    ensures w == 2 <==> s[i] == '\r' && i + 1 < |s| && s[i + 1] == '\n'
  {
    if s[i] == '\r' && i + 1 < |s| && s[i + 1] == '\n' then 2 else 1
  }

  /** `s.splitlines()`: the lines without their breaks; a break at the very end opens no new line. */
  function SplitLines(s: string): (lines: seq<string>)
    // An empty text has no lines; a non-empty one has at least one, and never more lines than characters.
    ensures |lines| == 0 <==> |s| == 0
    ensures |lines| <= |s|
    decreases |s|
  {
    if |s| == 0 then []
    else
      var i := LineEnd(s);
      if i == |s| then [s]
      else [s[..i]] + SplitLines(s[i + BreakWidth(s, i)..])
  }

  /** No line that `splitlines` produces holds a line boundary. */
  lemma {:induction false} SplitLinesSingle(s: string)
    ensures forall k :: 0 <= k < |SplitLines(s)| ==> NoLineBreak(SplitLines(s)[k])
    decreases |s|
  {
    if s != [] {
      var i := LineEnd(s);
      LineEndFirst(s);
      if i == |s| {
        assert s[..i] == s;
      } else {
        var rest := s[i + BreakWidth(s, i)..];
        SplitLinesSingle(rest);
        assert SplitLines(s) == [s[..i]] + SplitLines(rest);
      }
    }
  }

  // --------------------------------------------------------------------- strip

  /** The index of the first non-whitespace character at or after `i`, or `|s|`. */
  function StripStart(s: string, i: nat): (k: nat)
    requires i <= |s|
    ensures i <= k <= |s|
    ensures forall j :: i <= j < k ==> IsSpace(s[j])
    ensures k < |s| ==> !IsSpace(s[k])
    decreases |s| - i
  {
    if i < |s| && IsSpace(s[i]) then StripStart(s, i + 1) else i
  }

  /** Moving back from `j`, but not below `lo`, past whitespace: the end of the stripped text. */
  function StripEnd(s: string, lo: nat, j: nat): (k: nat)
    requires lo <= j <= |s|
    ensures lo <= k <= j
    ensures forall m :: k <= m < j ==> IsSpace(s[m])
    ensures k > lo ==> !IsSpace(s[k - 1])
  {
    if j > lo && IsSpace(s[j - 1]) then StripEnd(s, lo, j - 1) else j
  }

  /** `s.strip()`: `s` is the stripped text between two runs of whitespace. */
  function Strip(s: string): (r: string)
    ensures r == [] || (!IsSpace(r[0]) && !IsSpace(r[|r| - 1]))
    ensures var lead := StripStart(s, 0);
      lead + |r| <= |s| && r == s[lead..lead + |r|]
      && AllSpace(s[..lead]) && AllSpace(s[lead + |r|..])
  {
    var i := StripStart(s, 0);
    var j := StripEnd(s, i, |s|);
    SpaceAround(s, i, j);
    assert i < j ==> s[i..j][0] == s[i] && s[i..j][j - i - 1] == s[j - 1];
    s[i..j]
  }

  lemma {:induction false} SpaceAround(s: string, i: nat, j: nat)
    requires i <= j <= |s|
    requires forall m :: 0 <= m < i ==> IsSpace(s[m])
    requires forall m :: j <= m < |s| ==> IsSpace(s[m])
    ensures AllSpace(s[..i]) && AllSpace(s[j..])
  {
    SpaceRange(s, 0, i);
    SpaceRange(s, j, |s|);
    assert s[0..i] == s[..i] && s[j..|s|] == s[j..];
  }

  lemma {:induction false} SpaceRange(s: string, i: nat, j: nat)
    requires i <= j <= |s|
    requires forall m :: i <= m < j ==> IsSpace(s[m])
    ensures AllSpace(s[i..j])
  {
    forall m | 0 <= m < j - i
      ensures IsSpace(s[i..j][m])
    {
      assert s[i..j][m] == s[i + m];
    }
  }

  // ----------------------------------------------------------------- split("  ")

  /** Index of the first occurrence of two spaces in `s`, or `|s|` when there is none. */
  function DoubleSpaceAt(s: string): (i: nat)
    ensures i == |s| || (i + 1 < |s| && s[i] == ' ' && s[i + 1] == ' ')
    ensures i <= |s|
  {
    if |s| < 2 then |s|
    else if s[0] == ' ' && s[1] == ' ' then 0
    else 1 + DoubleSpaceAt(s[1..])
  }

  /** No two spaces come before `DoubleSpaceAt(s)`. */
  lemma {:induction false} DoubleSpaceAtFirst(s: string)
    ensures NoDoubleSpace(s[..DoubleSpaceAt(s)])
  {
    if |s| >= 2 && !(s[0] == ' ' && s[1] == ' ') {
      var j := DoubleSpaceAt(s[1..]);
      DoubleSpaceAtFirst(s[1..]);
      var p := s[..1 + j];
      assert p == [s[0]] + s[1..][..j];
      forall i | 0 <= i < |p| - 1
        ensures !(p[i] == ' ' && p[i + 1] == ' ')
      {
        if i > 0 {
          assert p[i] == s[1..][..j][i - 1] && p[i + 1] == s[1..][..j][i];
        } else if j > 0 {
          assert p[1] == s[1];
        }
      }
    }
  }

  /** `s.split("  ")`: the pieces between the occurrences of two spaces, taken left to right without overlap. */
  function SplitDoubleSpace(s: string): (pieces: seq<string>)
    ensures |pieces| >= 1
    decreases |s|
  {
    var i := DoubleSpaceAt(s);
    if i == |s| then [s] else [s[..i]] + SplitDoubleSpace(s[i + 2..])
  }

  /** Text without two consecutive spaces has no double space to split at. */
  lemma {:induction false} DoubleSpaceAtNone(s: string)
    requires NoDoubleSpace(s)
    ensures DoubleSpaceAt(s) == |s|
    decreases |s|
  {
    if |s| >= 2 {
      assert !(s[0] == ' ' && s[1] == ' ');
      assert NoDoubleSpace(s[1..]) by {
        forall i | 0 <= i < |s[1..]| - 1
          ensures !(s[1..][i] == ' ' && s[1..][i + 1] == ' ')
        {
          assert s[1..][i] == s[i + 1] && s[1..][i + 1] == s[i + 2];
        }
      }
      DoubleSpaceAtNone(s[1..]);
    }
  }

  /** Text without two consecutive spaces is one piece. */
  lemma {:induction false} SplitDoubleSpaceOfPiece(s: string)
    requires NoDoubleSpace(s)
    ensures SplitDoubleSpace(s) == [s]
  {
    DoubleSpaceAtNone(s);
  }

  /** No piece of `split("  ")` holds two consecutive spaces. */
  lemma {:induction false} SplitDoubleSpaceSingle(s: string)
    ensures forall k :: 0 <= k < |SplitDoubleSpace(s)| ==> NoDoubleSpace(SplitDoubleSpace(s)[k])
    decreases |s|
  {
    var i := DoubleSpaceAt(s);
    DoubleSpaceAtFirst(s);
    if i < |s| {
      SplitDoubleSpaceSingle(s[i + 2..]);
      assert SplitDoubleSpace(s) == [s[..i]] + SplitDoubleSpace(s[i + 2..]);
    }
  }

  // ------------------------------------------------------------------ content

  /** The characters of `s` that are not whitespace, in order. */
  function NonSpace(s: string): string {
    if s == [] then [] else (if IsSpace(s[0]) then [] else [s[0]]) + NonSpace(s[1..])
  }

  lemma {:induction false} NonSpaceAppend(a: string, b: string)
    ensures NonSpace(a + b) == NonSpace(a) + NonSpace(b)
  {
    if a == [] {
      assert a + b == b;
    } else {
      assert (a + b)[1..] == a[1..] + b;
      NonSpaceAppend(a[1..], b);
    }
  }

  lemma {:induction false} NonSpaceEmpty(s: string)
    ensures NonSpace(s) == [] <==> AllSpace(s)
  {
    if s != [] {
      NonSpaceEmpty(s[1..]);
      assert AllSpace(s) <==> IsSpace(s[0]) && AllSpace(s[1..]);
    }
  }

  lemma {:induction false} ConcatAppend(a: seq<string>, b: seq<string>)
    ensures Concat(a + b) == Concat(a) + Concat(b)
  {
    if a == [] {
      assert a + b == b;
    } else {
      assert (a + b)[1..] == a[1..] + b;
      ConcatAppend(a[1..], b);
    }
  }

  /** Stripping removes whitespace only. */
  lemma {:induction false} StripKeepsContent(s: string)
    ensures NonSpace(Strip(s)) == NonSpace(s)
  {
    InfixContent(s, StripStart(s, 0), Strip(s));
  }

  /** An infix between two runs of whitespace holds all the content of the text. */
  lemma {:induction false} InfixContent(s: string, lead: nat, r: string)
    requires lead + |r| <= |s| && r == s[lead..lead + |r|]
    requires AllSpace(s[..lead]) && AllSpace(s[lead + |r|..])
    ensures NonSpace(r) == NonSpace(s)
  {
    ThreeSlices(s, lead, lead + |r|);
    NonSpaceAppend(s[..lead] + r, s[lead + |r|..]);
    NonSpaceAppend(s[..lead], r);
    NonSpaceEmpty(s[..lead]);
    NonSpaceEmpty(s[lead + |r|..]);
  }

  /** A stripped infix keeps the absence of double spaces and line breaks. */
  lemma {:induction false} StripKeepsShape(s: string)
    ensures NoDoubleSpace(s) ==> NoDoubleSpace(Strip(s))
    ensures NoLineBreak(s) ==> NoLineBreak(Strip(s))
  {
    InfixShape(s, StripStart(s, 0), Strip(s));
  }

  lemma {:induction false} InfixShape(s: string, lead: nat, r: string)
    requires lead + |r| <= |s| && r == s[lead..lead + |r|]
    ensures NoDoubleSpace(s) ==> NoDoubleSpace(r)
    ensures NoLineBreak(s) ==> NoLineBreak(r)
  {
    assert forall i :: 0 <= i < |r| ==> r[i] == s[lead + i];
  }

  /** Text without surrounding whitespace is left alone by `strip`. */
  lemma {:induction false} StripTrimmed(s: string)
    requires s == [] || (!IsSpace(s[0]) && !IsSpace(s[|s| - 1]))
    ensures Strip(s) == s
  {
  }

  /** Round trip: `"  ".join(s.split("  ")) == s`. */
  lemma {:induction false} JoinSplitDoubleSpace(s: string)
    ensures Join("  ", SplitDoubleSpace(s)) == s
    decreases |s|
  {
    var i := DoubleSpaceAt(s);
    if i < |s| {
      var rest := s[i + 2..];
      JoinSplitDoubleSpace(rest);
      SplitDoubleSpaceStep(s, i);
      JoinSplitPiece(s, i, SplitDoubleSpace(rest));
    }
  }

  /** One step of `split("  ")`: the text up to the first two spaces, then the pieces after them. */
  lemma {:induction false} SplitDoubleSpaceStep(s: string, i: nat)
    requires i == DoubleSpaceAt(s) && i < |s|
    ensures SplitDoubleSpace(s) == [s[..i]] + SplitDoubleSpace(s[i + 2..])
  {
  }

  lemma {:induction false} JoinSplitPiece(s: string, i: nat, pieces: seq<string>)
    requires i + 1 < |s| && s[i] == ' ' && s[i + 1] == ' '
    requires pieces != [] && Join("  ", pieces) == s[i + 2..]
    ensures Join("  ", [s[..i]] + pieces) == s
  {
    var all := [s[..i]] + pieces;
    assert all[0] == s[..i] && all[1..] == pieces;
    assert s == s[..i] + "  " + s[i + 2..];
  }

  /** Joining with a whitespace separator adds no content. */
  lemma {:induction false} JoinSpaceContent(sep: string, parts: seq<string>)
    requires AllSpace(sep)
    ensures NonSpace(Join(sep, parts)) == NonSpace(Concat(parts))
  {
    if |parts| == 1 {
      assert Concat(parts) == parts[0] + Concat([]);
      assert parts[0] + "" == parts[0];
    } else if |parts| > 1 {
      JoinSpaceContent(sep, parts[1..]);
      NonSpaceAppend(parts[0] + sep, Join(sep, parts[1..]));
      NonSpaceAppend(parts[0], sep);
      NonSpaceEmpty(sep);
      NonSpaceAppend(parts[0], Concat(parts[1..]));
    }
  }

  /** `split("  ")` removes only spaces. */
  lemma {:induction false} SplitDoubleSpaceContent(s: string)
    ensures NonSpace(Concat(SplitDoubleSpace(s))) == NonSpace(s)
  {
    JoinSplitDoubleSpace(s);
    JoinSpaceContent("  ", SplitDoubleSpace(s));
  }

  /** Removing a run of whitespace from the middle of a text leaves its content unchanged. */
  lemma {:induction false} NonSpaceSkipGap(a: string, gap: string, b: string)
    requires AllSpace(gap)
    ensures NonSpace(a + gap + b) == NonSpace(a) + NonSpace(b)
  {
    NonSpaceAppend(a + gap, b);
    NonSpaceAppend(a, gap);
    NonSpaceEmpty(gap);
  }

  /** A line break, and the characters it spans, are whitespace. */
  lemma {:induction false} BreakIsSpace(s: string, i: nat)
    requires i < |s| && IsLineBreak(s[i])
    ensures AllSpace(s[i..i + BreakWidth(s, i)])
  {
    var gap := s[i..i + BreakWidth(s, i)];
    assert gap[0] == s[i];
    if |gap| == 2 {
      assert gap[1] == s[i + 1];
    }
  }

  /** `splitlines` removes only line breaks, which are whitespace. */
  lemma {:induction false} SplitLinesContent(s: string)
    ensures NonSpace(Concat(SplitLines(s))) == NonSpace(s)
    decreases |s|
  {
    if s != [] {
      var i := LineEnd(s);
      if i == |s| {
        SplitLinesLast(s);
        ConcatSingle(s);
      } else {
        SplitLinesContent(s[i + BreakWidth(s, i)..]);
        SplitLinesContentStep(s, i);
      }
    }
  }

  /** The content step of `SplitLinesContent`: one line, one break, then the lines of the rest. */
  lemma {:induction false} SplitLinesContentStep(s: string, i: nat)
    requires i == LineEnd(s) && i < |s|
    requires NonSpace(Concat(SplitLines(s[i + BreakWidth(s, i)..]))) == NonSpace(s[i + BreakWidth(s, i)..])
    ensures NonSpace(Concat(SplitLines(s))) == NonSpace(s)
  {
    var w := BreakWidth(s, i);
    SplitLinesStep(s, i, w);
    BreakIsSpace(s, i);
    LineContent(s, i, w, SplitLines(s[i + w..]));
  }

  /** Text without a line boundary, before its end, is a single line. */
  lemma {:induction false} SplitLinesLast(s: string)
    requires s != [] && LineEnd(s) == |s|
    ensures SplitLines(s) == [s]
  {
    assert s[..LineEnd(s)] == s;
  }

  lemma {:induction false} ConcatSingle(s: string)
    ensures Concat([s]) == s
  {
    assert Concat([s]) == s + Concat([]);
    assert s + "" == s;
  }

  /** A line, a whitespace gap, then lines holding the content of the rest: together they hold the content of the whole text. */
  lemma {:induction false} LineContent(s: string, i: nat, w: nat, lines: seq<string>)
    requires i + w <= |s| && AllSpace(s[i..i + w])
    requires NonSpace(Concat(lines)) == NonSpace(s[i + w..])
    ensures NonSpace(Concat([s[..i]] + lines)) == NonSpace(s)
  {
    var line, gap, rest := s[..i], s[i..i + w], s[i + w..];
    assert Concat([line] + lines) == line + Concat(lines);
    ThreeSlices(s, i, i + w);
    NonSpaceSkipGap(line, gap, rest);
    NonSpaceAppend(line, Concat(lines));
  }

  // ------------------------------------------------------- join and splitlines

  /** The lines a block of text contributes when it is followed by a line break: an empty block is one empty line. */
  function LinesOf(block: string): seq<string> {
    if |block| == 0 then [""] else SplitLines(block)
  }

  /** The lines of consecutive blocks, each followed by a line break. */
  function AllLines(blocks: seq<string>): seq<string> {
    if blocks == [] then [] else LinesOf(blocks[0]) + AllLines(blocks[1..])
  }

  /** A block that does not end in a line break is not merged with the break that follows it. */
  predicate EndsOpen(block: string) {
    block == [] || !IsLineBreak(block[|block| - 1])
  }

  /** One step of `splitlines`: the text up to the first break, then the lines after it. */
  lemma {:induction false} SplitLinesStep(s: string, i: nat, w: nat)
    requires i == LineEnd(s) && i < |s| && w == BreakWidth(s, i)
    ensures SplitLines(s) == [s[..i]] + SplitLines(s[i + w..])
  {
    assert |s| != 0 && LineEnd(s) != |s|;
  }

  lemma {:induction false} SplitLinesAfter(block: string, rest: string)
    requires EndsOpen(block)
    ensures SplitLines(block + "\n" + rest) == LinesOf(block) + SplitLines(rest)
    decreases |block|
  {
    var s := block + "\n" + rest;
    if block == [] {
      assert s == "\n" + rest;
      assert LineEnd(s) == 0 && BreakWidth(s, 0) == 1;
      SplitLinesStep(s, LineEnd(s), BreakWidth(s, LineEnd(s)));
      assert s[..0] == "" && s[1..] == rest;
    } else if LineEnd(block) == |block| {
      LineEndFirst(block);
      assert block[..|block|] == block;
      assert s == block + ("\n" + rest);
      LineEndAfterLine(block, "\n" + rest);
      assert s[..|block|] == block && s[|block|] == '\n';
      assert BreakWidth(s, |block|) == 1;
      assert s[|block| + 1..] == rest;
      SplitLinesStep(s, LineEnd(s), BreakWidth(s, LineEnd(s)));
      assert SplitLines(block) == [block];
    } else {
      SplitLinesAfterBreak(block, rest);
    }
  }

  lemma {:induction false} SplitLinesAfterBreak(block: string, rest: string)
    requires EndsOpen(block) && LineEnd(block) < |block|
    ensures SplitLines(block + "\n" + rest) == LinesOf(block) + SplitLines(rest)
    decreases |block|, 0
  {
    var i := LineEnd(block);
    var tail := block[i + BreakWidth(block, i)..];
    BreakInsideBlock(block, "\n" + rest);
    assert tail != [] && EndsOpen(tail) by {
      assert tail[|tail| - 1] == block[|block| - 1];
    }
    SplitLinesAfter(tail, rest);
    SplitLinesAfterBreakStep(block, rest, i);
  }

  /** The first line of a block that holds a break: it opens the lines of the block and of the block followed by more text alike. */
  lemma {:induction false} SplitLinesAfterBreakStep(block: string, rest: string, i: nat)
    requires EndsOpen(block) && i == LineEnd(block) && i < |block|
    requires var tail := block[i + BreakWidth(block, i)..];
      SplitLines(tail + "\n" + rest) == LinesOf(tail) + SplitLines(rest)
    requires i + BreakWidth(block, i) < |block|
    ensures SplitLines(block + "\n" + rest) == LinesOf(block) + SplitLines(rest)
  {
    var tail := block[i + BreakWidth(block, i)..];
    SplitLinesGlueFirst(block, rest, i);
    LinesOfBreakFirst(block, i);
    ConcatAssoc([block[..i]], LinesOf(tail), SplitLines(rest));
  }

  /** The first line of a block followed by a break and more text. */
  lemma {:induction false} SplitLinesGlueFirst(block: string, rest: string, i: nat)
    requires EndsOpen(block) && i == LineEnd(block) && i < |block|
    ensures SplitLines(block + "\n" + rest) == [block[..i]] + SplitLines(block[i + BreakWidth(block, i)..] + "\n" + rest)
  {
    var tail := block[i + BreakWidth(block, i)..];
    SplitLinesBreakFirst(block, "\n" + rest, i);
    ConcatAssoc(block, "\n", rest);
    ConcatAssoc(tail, "\n", rest);
  }

  /** The first line of a block whose first break is not its last character. */
  lemma {:induction false} LinesOfBreakFirst(block: string, i: nat)
    requires i == LineEnd(block) && i < |block| && i + BreakWidth(block, i) < |block|
    ensures LinesOf(block) == [block[..i]] + LinesOf(block[i + BreakWidth(block, i)..])
  {
    var w := BreakWidth(block, i);
    SplitLinesStep(block, i, w);
    LinesOfNonEmpty(block);
    LinesOfNonEmpty(block[i + w..]);
  }

  lemma {:induction false} LinesOfNonEmpty(block: string)
    requires |block| > 0
    ensures LinesOf(block) == SplitLines(block)
  {
  }

  /** Text after a block does not change where the block's first line ends. */
  lemma {:induction false} SplitLinesBreakFirst(block: string, t: string, i: nat)
    requires EndsOpen(block) && i == LineEnd(block) && i < |block|
    ensures SplitLines(block + t) == [block[..i]] + SplitLines(block[i + BreakWidth(block, i)..] + t)
  {
    var w := BreakWidth(block, i);
    BreakInsideBlock(block, t);
    AppendSlices(block, t, i, i + w);
    SplitLinesStep(block + t, i, w);
  }

  /** A sequence is its three consecutive slices joined. */
  lemma {:induction false} ThreeSlices<T>(s: seq<T>, i: nat, j: nat)
    requires i <= j <= |s|
    ensures s == s[..i] + s[i..j] + s[j..]
  {
  }

  /** Slices of `a + b` that end, or start, inside `a`. */
  lemma {:induction false} AppendSlices<T>(a: seq<T>, b: seq<T>, i: nat, j: nat)
    requires i <= j <= |a|
    ensures (a + b)[..i] == a[..i]
    ensures (a + b)[j..] == a[j..] + b
  {
  }



  lemma {:induction false} ConcatAssoc<T>(a: seq<T>, b: seq<T>, c: seq<T>)
    ensures a + (b + c) == (a + b) + c
  {
  }

  /** When a block that ends open holds a break, text appended after it does not move that break. */
  lemma {:induction false} BreakInsideBlock(block: string, t: string)
    requires EndsOpen(block) && LineEnd(block) < |block|
    ensures LineEnd(block + t) == LineEnd(block)
    ensures BreakWidth(block + t, LineEnd(block)) == BreakWidth(block, LineEnd(block))
    ensures LineEnd(block) + BreakWidth(block, LineEnd(block)) < |block|
  {
    var i := LineEnd(block);
    LineEndPrefix(block, t);
    assert i + 1 < |block|;
    assert (block + t)[i] == block[i] && (block + t)[i + 1] == block[i + 1];
  }

  /** The first line break of `a + b` is that of `a` when `a` has one. */
  lemma {:induction false} LineEndPrefix(a: string, b: string)
    requires LineEnd(a) < |a|
    ensures LineEnd(a + b) == LineEnd(a)
  {
    LineEndFromPrefix(a, b, 0);
  }

  lemma {:induction false} LineEndFromPrefix(a: string, b: string, k: nat)
    requires k <= |a| && LineEndFrom(a, k) < |a|
    ensures LineEndFrom(a + b, k) == LineEndFrom(a, k)
    decreases |a| - k
  {
    assert (a + b)[k] == a[k];
    if !IsLineBreak(a[k]) {
      LineEndFromPrefix(a, b, k + 1);
    }
  }

  /** A line with no break, followed by a break, ends where the line does. */
  lemma {:induction false} LineEndAfterLine(a: string, b: string)
    requires NoLineBreak(a) && b != [] && IsLineBreak(b[0])
    ensures LineEnd(a + b) == |a|
  {
    LineEndFromAfterLine(a, b, 0);
  }

  lemma {:induction false} LineEndFromAfterLine(a: string, b: string, k: nat)
    requires k <= |a| && NoLineBreak(a) && b != [] && IsLineBreak(b[0])
    ensures LineEndFrom(a + b, k) == |a|
    decreases |a| - k
  {
    if k == |a| {
      assert (a + b)[k] == b[0];
    } else {
      assert (a + b)[k] == a[k];
      LineEndFromAfterLine(a, b, k + 1);
    }
  }

  /** Round trip for a sequence of blocks: `"\n".join(blocks) + "\n" + rest` splits into the blocks' lines, then those of `rest`. */
  lemma {:induction false} SplitLinesOfBlocks(blocks: seq<string>, rest: string)
    requires blocks != []
    requires forall k :: 0 <= k < |blocks| ==> EndsOpen(blocks[k])
    ensures SplitLines(Join("\n", blocks) + "\n" + rest) == AllLines(blocks) + SplitLines(rest)
  {
    if |blocks| == 1 {
      SplitLinesAfter(blocks[0], rest);
      AllLinesSingle(blocks);
    } else {
      SplitLinesOfBlocks(blocks[1..], rest);
      SplitLinesOfBlocksStep(blocks, rest);
    }
  }

  /** The first block of several, then the lines of the others. */
  lemma {:induction false} SplitLinesOfBlocksStep(blocks: seq<string>, rest: string)
    requires |blocks| > 1 && EndsOpen(blocks[0])
    requires SplitLines(Join("\n", blocks[1..]) + "\n" + rest) == AllLines(blocks[1..]) + SplitLines(rest)
    ensures SplitLines(Join("\n", blocks) + "\n" + rest) == AllLines(blocks) + SplitLines(rest)
  {
    var tail := Join("\n", blocks[1..]) + "\n" + rest;
    JoinGlue(blocks, rest);
    SplitLinesAfter(blocks[0], tail);
    ConcatAssoc(LinesOf(blocks[0]), AllLines(blocks[1..]), SplitLines(rest));
  }

  /** Regrouping a join of several blocks, a break and more text around its first block. */
  lemma {:induction false} JoinGlue(blocks: seq<string>, rest: string)
    requires |blocks| > 1
    ensures Join("\n", blocks) + "\n" + rest == blocks[0] + "\n" + (Join("\n", blocks[1..]) + "\n" + rest)
  {
    var joined := Join("\n", blocks[1..]);
    ConcatAssoc(blocks[0] + "\n", joined, "\n" + rest);
    ConcatAssoc(blocks[0] + "\n" + joined, "\n", rest);
    ConcatAssoc(joined, "\n", rest);
  }

  lemma {:induction false} AllLinesAppend(a: seq<string>, b: seq<string>)
    ensures AllLines(a + b) == AllLines(a) + AllLines(b)
  {
    if a == [] {
      assert a + b == b;
    } else {
      assert (a + b)[1..] == a[1..] + b;
      AllLinesAppend(a[1..], b);
    }
  }

  /** A single block contributes its own lines. */
  lemma {:induction false} AllLinesSingle(blocks: seq<string>)
    requires |blocks| == 1
    ensures AllLines(blocks) == LinesOf(blocks[0])
  {
    assert AllLines(blocks[1..]) == [];
    AppendEmpty(LinesOf(blocks[0]));
  }

  lemma {:induction false} AppendEmpty<T>(s: seq<T>)
    ensures s + [] == s
  {
  }

  /** Blocks that are single lines contribute themselves. */
  lemma {:induction false} AllLinesOfLines(lines: seq<string>)
    requires forall k :: 0 <= k < |lines| ==> NoLineBreak(lines[k])
    ensures AllLines(lines) == lines
  {
    if lines != [] {
      SplitLinesOfLine(lines[0]);
      AllLinesOfLines(lines[1..]);
    }
  }

  lemma {:induction false} SplitLinesOfLine(line: string)
    requires NoLineBreak(line)
    ensures LinesOf(line) == [line]
  {
    if line != [] {
      assert LineEnd(line) == |line|;
    }
  }

  /** Round trip: `"\n".join(lines).splitlines() == lines` when no line holds a break and the last is not empty. */
  lemma {:induction false} SplitLinesOfJoin(lines: seq<string>)
    requires lines != [] && lines[|lines| - 1] != []
    requires forall k :: 0 <= k < |lines| ==> NoLineBreak(lines[k])
    ensures SplitLines(Join("\n", lines)) == lines
  {
    if |lines| == 1 {
      SplitLinesOfLine(lines[0]);
    } else {
      SplitLinesOfJoin(lines[1..]);
      SplitLinesOfJoinStep(lines);
    }
  }

  /** The first line of several, then the lines of the others. */
  lemma {:induction false} SplitLinesOfJoinStep(lines: seq<string>)
    requires |lines| > 1 && NoLineBreak(lines[0])
    requires SplitLines(Join("\n", lines[1..])) == lines[1..]
    ensures SplitLines(Join("\n", lines)) == lines
  {
    var joined := Join("\n", lines[1..]);
    SplitLinesAfter(lines[0], joined);
    SplitLinesOfLine(lines[0]);
    HeadTail(lines);
  }

  /** A non-empty sequence is its first element followed by the others. */
  lemma {:induction false} HeadTail<T>(s: seq<T>)
    requires s != []
    ensures s == [s[0]] + s[1..]
  {
  }

  /** The last character of a join is that of its last part. */
  lemma {:induction false} JoinLast(sep: string, parts: seq<string>)
    requires parts != [] && parts[|parts| - 1] != []
    ensures Join(sep, parts) != [] && Join(sep, parts)[|Join(sep, parts)| - 1] == parts[|parts| - 1][|parts[|parts| - 1]| - 1]
  {
    if |parts| > 1 {
      JoinLast(sep, parts[1..]);
    }
  }

  /** A join of three or more parts opens with the first two, each followed by the separator. */
  lemma {:induction false} JoinOpens(sep: string, parts: seq<string>)
    requires |parts| >= 3
    ensures parts[0] + sep + parts[1] + sep <= Join(sep, parts)
  {
    var rest := Join(sep, parts[2..]);
    assert Join(sep, parts[1..]) == parts[1] + sep + rest;
    var opening := parts[0] + sep + parts[1] + sep;
    assert Join(sep, parts) == opening + rest by {
      ConcatAssoc(parts[0] + sep, parts[1] + sep, rest);
      ConcatAssoc(parts[1], sep, rest);
    }
  }

  /** Appending one part adds one separator. */
  lemma {:induction false} JoinSnoc(sep: string, parts: seq<string>, last: string)
    requires parts != []
    ensures Join(sep, parts + [last]) == Join(sep, parts) + sep + last
  {
    if |parts| == 1 {
      assert (parts + [last])[1..] == [last];
    } else {
      assert (parts + [last])[1..] == parts[1..] + [last];
      JoinSnoc(sep, parts[1..], last);
      ConcatAssoc(parts[0] + sep, Join(sep, parts[1..]) + sep, last);
      ConcatAssoc(parts[0] + sep, Join(sep, parts[1..]), sep);
    }
  }

  /** Round trip for blocks: the lines of `"\n".join(blocks)` are the blocks' lines, when the last block is not empty. */
  lemma {:induction false} SplitLinesOfJoinedBlocks(blocks: seq<string>)
    requires blocks != [] && blocks[|blocks| - 1] != []
    requires forall k :: 0 <= k < |blocks| ==> EndsOpen(blocks[k])
    ensures SplitLines(Join("\n", blocks)) == AllLines(blocks)
  {
    if |blocks| == 1 {
      AllLinesSingle(blocks);
    } else {
      SplitLinesOfJoinedBlocks(blocks[1..]);
      SplitLinesAfter(blocks[0], Join("\n", blocks[1..]));
    }
  }
}
