/**
 The clean-up that `scrape_job_specifications` applies to the text extracted
 from a job posting: split into lines, strip each line, split each line on
 two spaces, strip each phrase, drop the empty ones and join the survivors
 with single spaces.
 */
module TextCleanup {
  import opened PyStr

  /** `phrase.strip() for line in lines for phrase in line.strip().split("  ")` */
  function Chunks(lines: seq<string>): seq<string> {
    if lines == [] then [] else StripEach(SplitDoubleSpace(Strip(lines[0]))) + Chunks(lines[1..])
  }

  function StripEach(phrases: seq<string>): seq<string> {
    if phrases == [] then [] else [Strip(phrases[0])] + StripEach(phrases[1..])
  }

  /** `chunk for chunk in chunks if chunk` */
  function NonEmpty(chunks: seq<string>): seq<string> {
    if chunks == [] then []
    else (if chunks[0] == "" then [] else [chunks[0]]) + NonEmpty(chunks[1..])
  }

  /**
   The cleaned text of a page: one line with no double space and no
   whitespace at either end, holding every non-whitespace character of the
   page text in order.
   */
  function CleanText(text: string): (r: string)
    ensures Normal(r)
    ensures NonSpace(r) == NonSpace(text)
  {
    var lines := SplitLines(text);
    var chunks := NonEmpty(Chunks(lines));
    SplitLinesSingle(text);
    ChunksNormal(lines);
    NonEmptyNormal(Chunks(lines));
    JoinNormal(chunks);
    JoinSpaceContent(" ", chunks);
    NonEmptyConcat(Chunks(lines));
    ChunksContent(lines);
    SplitLinesContent(text);
    Join(" ", chunks)
  }

  /** The shape of cleaned text: one line, no double space, no whitespace at either end. */
  predicate Normal(s: string) {
    && NoDoubleSpace(s)
    && NoLineBreak(s)
    && (s == [] || (!IsSpace(s[0]) && !IsSpace(s[|s| - 1])))
  }

  // ------------------------------------------------------------------ shape

  lemma {:induction false} StripEachNormal(phrases: seq<string>)
    requires forall k :: 0 <= k < |phrases| ==> NoDoubleSpace(phrases[k]) && NoLineBreak(phrases[k])
    ensures forall k :: 0 <= k < |StripEach(phrases)| ==> Normal(StripEach(phrases)[k])
  {
    if phrases != [] {
      StripKeepsShape(phrases[0]);
      StripEachNormal(phrases[1..]);
    }
  }

  lemma {:induction false} SplitDoubleSpaceNoLineBreak(s: string)
    requires NoLineBreak(s)
    ensures forall k :: 0 <= k < |SplitDoubleSpace(s)| ==> NoLineBreak(SplitDoubleSpace(s)[k])
    decreases |s|
  {
    var i := DoubleSpaceAt(s);
    if i < |s| {
      assert NoLineBreak(s[i + 2..]);
      SplitDoubleSpaceNoLineBreak(s[i + 2..]);
    }
  }

  lemma {:induction false} ChunksNormal(lines: seq<string>)
    requires forall k :: 0 <= k < |lines| ==> NoLineBreak(lines[k])
    ensures forall k :: 0 <= k < |Chunks(lines)| ==> Normal(Chunks(lines)[k])
  {
    if lines != [] {
      var line := Strip(lines[0]);
      StripKeepsShape(lines[0]);
      SplitDoubleSpaceNoLineBreak(line);
      SplitDoubleSpaceSingle(line);
      StripEachNormal(SplitDoubleSpace(line));
      ChunksNormal(lines[1..]);
      AllNormalAppend(StripEach(SplitDoubleSpace(line)), Chunks(lines[1..]));
    }
  }

  lemma {:induction false} AllNormalAppend(a: seq<string>, b: seq<string>)
    requires forall k :: 0 <= k < |a| ==> Normal(a[k])
    requires forall k :: 0 <= k < |b| ==> Normal(b[k])
    ensures forall k :: 0 <= k < |a + b| ==> Normal((a + b)[k])
  {
    forall k | 0 <= k < |a + b|
      ensures Normal((a + b)[k])
    {
      if k < |a| {
        assert (a + b)[k] == a[k];
      } else {
        assert (a + b)[k] == b[k - |a|];
      }
    }
  }

  lemma {:induction false} NonEmptyNormal(chunks: seq<string>)
    requires forall k :: 0 <= k < |chunks| ==> Normal(chunks[k])
    ensures forall k :: 0 <= k < |NonEmpty(chunks)| ==> NonEmpty(chunks)[k] != [] && Normal(NonEmpty(chunks)[k])
  {
    if chunks != [] {
      NonEmptyNormal(chunks[1..]);
    }
  }

  /** Gluing two normal, non-empty texts with one space gives normal text. */
  lemma {:induction false} GlueNormal(a: string, b: string)
    requires a != [] && Normal(a) && b != [] && Normal(b)
    ensures Normal(a + " " + b)
  {
    var r := a + " " + b;
    forall i | 0 <= i < |r| - 1
      ensures !(r[i] == ' ' && r[i + 1] == ' ')
    {
      if i < |a| - 1 {
        assert r[i] == a[i] && r[i + 1] == a[i + 1];
      } else if i == |a| - 1 {
        assert r[i] == a[|a| - 1];
      } else if i == |a| {
        assert r[i + 1] == b[0];
      } else {
        assert r[i] == b[i - |a| - 1] && r[i + 1] == b[i - |a|];
      }
    }
    forall i | 0 <= i < |r|
      ensures !IsLineBreak(r[i])
    {
      if i < |a| {
        assert r[i] == a[i];
      } else if i > |a| {
        assert r[i] == b[i - |a| - 1];
      }
    }
  }

  lemma {:induction false} JoinNormal(chunks: seq<string>)
    requires forall k :: 0 <= k < |chunks| ==> chunks[k] != [] && Normal(chunks[k])
    ensures Normal(Join(" ", chunks))
    ensures chunks != [] ==> Join(" ", chunks) != []
  {
    if |chunks| > 1 {
      JoinNormal(chunks[1..]);
      GlueNormal(chunks[0], Join(" ", chunks[1..]));
    }
  }

  // ---------------------------------------------------------------- content

  lemma {:induction false} StripEachContent(phrases: seq<string>)
    ensures NonSpace(Concat(StripEach(phrases))) == NonSpace(Concat(phrases))
  {
    if phrases != [] {
      StripEachContent(phrases[1..]);
      StripKeepsContent(phrases[0]);
      NonSpaceAppend(Strip(phrases[0]), Concat(StripEach(phrases[1..])));
      NonSpaceAppend(phrases[0], Concat(phrases[1..]));
    }
  }

  lemma {:induction false} ChunksContent(lines: seq<string>)
    ensures NonSpace(Concat(Chunks(lines))) == NonSpace(Concat(lines))
  {
    if lines != [] {
      var phrases := SplitDoubleSpace(Strip(lines[0]));
      ChunksContent(lines[1..]);
      ConcatAppend(StripEach(phrases), Chunks(lines[1..]));
      NonSpaceAppend(Concat(StripEach(phrases)), Concat(Chunks(lines[1..])));
      StripEachContent(phrases);
      SplitDoubleSpaceContent(Strip(lines[0]));
      StripKeepsContent(lines[0]);
      NonSpaceAppend(lines[0], Concat(lines[1..]));
    }
  }

  /** Dropping empty chunks loses nothing. */
  lemma {:induction false} NonEmptyConcat(chunks: seq<string>)
    ensures Concat(NonEmpty(chunks)) == Concat(chunks)
  {
    if chunks != [] {
      NonEmptyConcat(chunks[1..]);
      var head := if chunks[0] == "" then [] else [chunks[0]];
      ConcatAppend(head, NonEmpty(chunks[1..]));
      if chunks[0] != "" {
        assert Concat(head) == chunks[0] + Concat([]);
        assert chunks[0] + "" == chunks[0];
      }
    }
  }

  /** The cleaned text is empty exactly when the page text is all whitespace. */
  lemma {:induction false} CleanTextEmptyIffBlank(text: string)
    ensures CleanText(text) == [] <==> AllSpace(text)
  {
    var r := CleanText(text);
    NonSpaceEmpty(text);
    if r != [] {
      assert NonSpace(r) == [r[0]] + NonSpace(r[1..]);
    }
  }

  // ------------------------------------------------------------ idempotence

  /** Text that is already normal comes out of clean-up unchanged. */
  lemma {:induction false} CleanTextFixesNormal(s: string)
    requires Normal(s)
    ensures CleanText(s) == s
  {
    if s != [] {
      assert SplitLines(s) == [s] by { SplitLinesOfLine(s); }
      assert Strip(s) == s by { StripTrimmed(s); }
      assert SplitDoubleSpace(s) == [s] by { SplitDoubleSpaceOfPiece(s); }
      assert Chunks([s]) == [s] by {
        assert StripEach([s]) == [Strip(s)] + StripEach([]);
        assert Chunks([s]) == StripEach([s]) + Chunks([]);
      }
      assert NonEmpty([s]) == [s] + NonEmpty([]);
    }
  }

  /** Cleaning cleaned text changes nothing. */
  lemma {:induction false} CleanTextIdempotent(text: string)
    ensures CleanText(CleanText(text)) == CleanText(text)
  {
    CleanTextFixesNormal(CleanText(text));
  }
}
