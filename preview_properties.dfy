/**
 * What the preview of one range promises: which lines it shows, what each
 * piece of text is, how often "...<br>" occurs, when it fails, and, without
 * surround mode, that it is the text of the range with "<br>" for each line
 * delimiter.
 */
module PreviewProperties {
  import opened Wrappers
  import opened PreviewDocument
  import opened ProposalPreview

  // ----- "...<br>" at most once -----

  lemma {:induction false} ScanElisions(d: Document, s: nat, e: nat, surround: bool, startLine: nat, endLine: nat, i: nat, dots: bool)
    requires WellFormed(d) && endLine < |d.lines| && e <= |d.text|
    ensures multiset(Scan(d, s, e, surround, startLine, endLine, i, dots).chunks)[Elision] <= if surround && !dots then 1 else 0
    decreases endLine + 1 - i
  {
    var here := Scan(d, s, e, surround, startLine, endLine, i, dots);
    if i <= endLine {
      if Elided(surround, startLine, endLine, i) {
        if !dots {
          var rest := Scan(d, s, e, surround, startLine, endLine, i + 1, true);
          assert here.chunks == [Elision] + rest.chunks;
          ScanElisions(d, s, e, surround, startLine, endLine, i + 1, true);
        } else if e != |d.text| {
          ScanElisions(d, s, e, surround, startLine, endLine, i + 1, dots);
        }
      } else {
        match EmitLine(d, s, e, surround, i)
        case BadLocation =>
        case Emitted(cs) =>
          var rest := Scan(d, s, e, surround, startLine, endLine, i + 1, dots);
          assert here.chunks == cs + rest.chunks;
          assert multiset(cs)[Elision] == 0;
          ScanElisions(d, s, e, surround, startLine, endLine, i + 1, dots);
      }
    }
  }

  /** One call of appendContent appends "...<br>" at most once, and never outside surround mode. */
  lemma ElisionAtMostOnce(d: Document, s: nat, e: nat, surround: bool)
    requires WellFormed(d)
    ensures multiset(AppendedContent(d, s, e, surround).chunks)[Elision] <= if surround then 1 else 0
  {
    if s <= |d.text| && e <= |d.text| {
      var endLine := LineOfOffset(d, e);
      var startLine := FirstLine(d, s, e, surround);
      if surround && s == 0 {
        ScanElisions(d, s, e, true, startLine, endLine, startLine, true);
      } else {
        ScanElisions(d, s, e, surround, startLine, endLine, startLine, false);
      }
    }
  }

  // ----- which lines are shown, and what each piece is -----

  /** The piece of line l that the range [s, e) covers, clipped to the line's content. */
  function PieceFrom(d: Document, s: nat, l: nat): nat
    requires l < |d.lines|
  {
    Max(d.lines[l].offset, s)
  }

  function PieceTo(d: Document, e: nat, l: nat): nat
    requires l < |d.lines|
  {
    Min(LineEnd(d.lines[l]), e)
  }

  /**
   * A chunk the loop may produce: text, "<br>" or "...<br>", never bold; a
   * piece of text is the clipped content of a line the loop does not elide,
   * and in surround mode a blank piece starts inside its line.
   */
  ghost predicate LoopChunk(d: Document, s: nat, e: nat, surround: bool, startLine: nat, endLine: nat, c: Chunk)
    requires WellFormed(d)
  {
    && (c.Content? || c.LineBreak? || c.Elision?)
    && (c.Content? ==>
          && startLine <= c.line <= endLine < |d.lines|
          && !Elided(surround, startLine, endLine, c.line)
          && PieceFrom(d, s, c.line) <= PieceTo(d, e, c.line) <= |d.text|
          && c.text == d.text[PieceFrom(d, s, c.line)..PieceTo(d, e, c.line)]
          && (surround && OnlyWhitespace(c.text) ==> s > d.lines[c.line].offset))
  }

  lemma {:induction false} ScanChunks(d: Document, s: nat, e: nat, surround: bool, startLine: nat, endLine: nat, i: nat, dots: bool)
    requires WellFormed(d) && endLine < |d.lines| && e <= |d.text| && startLine <= i
    ensures forall c | c in Scan(d, s, e, surround, startLine, endLine, i, dots).chunks :: LoopChunk(d, s, e, surround, startLine, endLine, c)
    decreases endLine + 1 - i
  {
    if i <= endLine {
      if Elided(surround, startLine, endLine, i) {
        if !dots {
          ScanChunks(d, s, e, surround, startLine, endLine, i + 1, true);
        } else if e != |d.text| {
          ScanChunks(d, s, e, surround, startLine, endLine, i + 1, dots);
        }
      } else {
        match EmitLine(d, s, e, surround, i)
        case BadLocation =>
        case Emitted(cs) =>
          LineWithinText(d, i);
          assert forall c | c in cs :: LoopChunk(d, s, e, surround, startLine, endLine, c);
          ScanChunks(d, s, e, surround, startLine, endLine, i + 1, dots);
      }
    }
  }

  /**
   * A chunk appendContent(d, s, e, buf, surround) may append: never bold; a
   * piece of text is the content of a line between the start line and the
   * end line clipped to [s, e), in surround mode on a line at most
   * SurroundLines away from one of them, and blank only if it starts inside
   * its line.
   */
  ghost predicate PreviewChunk(d: Document, s: nat, e: nat, surround: bool, c: Chunk)
    requires WellFormed(d) && s <= |d.text| && e <= |d.text|
  {
    && (c.Content? || c.LineBreak? || c.Elision?)
    && (c.Content? ==>
          && LineOfOffset(d, s) <= c.line <= LineOfOffset(d, e)
          && (surround ==> c.line <= LineOfOffset(d, s) + SurroundLines || c.line + SurroundLines >= LineOfOffset(d, e))
          && PieceFrom(d, s, c.line) <= PieceTo(d, e, c.line) <= |d.text|
          && c.text == d.text[PieceFrom(d, s, c.line)..PieceTo(d, e, c.line)]
          && (surround && OnlyWhitespace(c.text) ==> s > d.lines[c.line].offset))
  }

  lemma PreviewChunks(d: Document, s: nat, e: nat, surround: bool)
    requires WellFormed(d) && s <= |d.text| && e <= |d.text|
    ensures forall c | c in AppendedContent(d, s, e, surround).chunks :: PreviewChunk(d, s, e, surround, c)
  {
    var endLine := LineOfOffset(d, e);
    var startLine := FirstLine(d, s, e, surround);
    if surround && s == 0 {
      LineOfOffsetZero(d);
      ScanChunks(d, s, e, true, startLine, endLine, startLine, true);
    } else {
      ScanChunks(d, s, e, surround, startLine, endLine, startLine, false);
    }
  }

  // ----- when appendContent throws -----

  /** Once past the line of s, no line ends before it starts, so get never throws. */
  lemma {:induction false} ScanTailSucceeds(d: Document, s: nat, e: nat, surround: bool, startLine: nat, endLine: nat, i: nat, dots: bool)
    requires WellFormed(d) && e <= |d.text| && endLine == LineOfOffset(d, e)
    requires i <= endLine ==> s <= d.lines[i].offset
    ensures !Scan(d, s, e, surround, startLine, endLine, i, dots).failed
    decreases endLine + 1 - i
  {
    if i <= endLine {
      var here := Scan(d, s, e, surround, startLine, endLine, i, dots);
      if i < endLine {
        LinesIncrease(d, i, endLine);
        assert s <= d.lines[i + 1].offset;
      }
      if Elided(surround, startLine, endLine, i) {
        if !dots {
          ScanTailSucceeds(d, s, e, surround, startLine, endLine, i + 1, true);
          assert here == Extend([Elision], Scan(d, s, e, surround, startLine, endLine, i + 1, true));
        } else if e != |d.text| {
          ScanTailSucceeds(d, s, e, surround, startLine, endLine, i + 1, dots);
          assert here == Scan(d, s, e, surround, startLine, endLine, i + 1, dots);
        } else {
          assert here == Appended([], false);
        }
      } else {
        var line := EmitLine(d, s, e, surround, i);
        assert line.Emitted?;
        ScanTailSucceeds(d, s, e, surround, startLine, endLine, i + 1, dots);
        assert here == Extend(line.chunks, Scan(d, s, e, surround, startLine, endLine, i + 1, dots));
      }
    }
  }

  /**
   * For a range with s <= e, appendContent throws BadLocationException
   * exactly when an offset lies outside the document or s lies in a line
   * delimiter.
   */
  lemma AppendContentFails(d: Document, s: nat, e: nat, surround: bool)
    requires WellFormed(d) && s <= e
    ensures AppendedContent(d, s, e, surround).failed <==>
              s > |d.text| || e > |d.text| || s > LineEnd(d.lines[LineOfOffset(d, s)])
  {
    if e <= |d.text| {
      var endLine := LineOfOffset(d, e);
      var startLine := FirstLine(d, s, e, surround);
      if surround && s == 0 {
        LineOfOffsetZero(d);
        ScanTailSucceeds(d, s, e, true, startLine, endLine, startLine, true);
      } else {
        LineOfOffsetMonotone(d, s, e);
        assert !Elided(surround, startLine, endLine, startLine);
        if startLine < endLine {
          LinesIncrease(d, startLine, endLine);
        }
        if s <= LineEnd(d.lines[startLine]) {
          if startLine + 1 < |d.lines| {
            assert LineEnd(d.lines[startLine]) < d.lines[startLine + 1].offset;
          }
          ScanTailSucceeds(d, s, e, surround, startLine, endLine, startLine + 1, false);
        }
      }
    }
  }

  // ----- without surround mode: the range's text, delimiters as "<br>" -----

  /**
   * The text of [p, e) where p lies in the content of line k, with every line
   * delimiter the range touches replaced by "<br>".
   */
  function Delimited(d: Document, p: nat, e: nat, k: nat): string
    requires WellFormed(d) && k < |d.lines| && d.lines[k].offset <= p <= LineEnd(d.lines[k]) && p <= e <= |d.text|
    decreases |d.lines| - k
  {
    LineWithinText(d, k);
    if e <= LineEnd(d.lines[k]) then d.text[p..e]
    else if k + 1 == |d.lines| then assert false; ""
    else if e < d.lines[k + 1].offset then d.text[p..LineEnd(d.lines[k])] + "<br>"
    else d.text[p..LineEnd(d.lines[k])] + "<br>" + Delimited(d, d.lines[k + 1].offset, e, k + 1)
  }

  lemma RenderOne(c: Chunk)
    ensures Render([c]) == ChunkText(c)
  {
    assert [c][1..] == [];
  }

  /** A line the range runs past is its clipped piece and "<br>". */
  lemma ScanPlainBreak(d: Document, s: nat, e: nat, startLine: nat, endLine: nat, k: nat)
    requires WellFormed(d) && e <= |d.text| && endLine < |d.lines|
    requires k <= endLine && PieceFrom(d, s, k) <= LineEnd(d.lines[k]) < e
    ensures PieceFrom(d, s, k) <= LineEnd(d.lines[k]) <= |d.text|
    ensures Scan(d, s, e, false, startLine, endLine, k, false).failed == Scan(d, s, e, false, startLine, endLine, k + 1, false).failed
    ensures Render(Scan(d, s, e, false, startLine, endLine, k, false).chunks)
         == d.text[PieceFrom(d, s, k)..LineEnd(d.lines[k])] + "<br>" + Render(Scan(d, s, e, false, startLine, endLine, k + 1, false).chunks)
  {
    var line := d.lines[k];
    var p := PieceFrom(d, s, k);
    LineWithinText(d, k);
    var c := Content(k, d.text[p..LineEnd(line)]);
    var piece := [c, LineBreak];
    assert !Elided(false, startLine, endLine, k);
    assert EmitLine(d, s, e, false, k) == Emitted(piece);
    var rest := Scan(d, s, e, false, startLine, endLine, k + 1, false);
    assert Scan(d, s, e, false, startLine, endLine, k, false) == Extend(piece, rest);
    RenderConcat(piece, rest.chunks);
    assert piece == [c] + [LineBreak];
    RenderConcat([c], [LineBreak]);
    RenderOne(c);
    RenderOne(LineBreak);
    assert Render(piece) == d.text[p..LineEnd(line)] + "<br>";
  }

  /** The line the range ends on is its clipped piece alone. */
  lemma ScanPlainLast(d: Document, s: nat, e: nat, startLine: nat, endLine: nat, k: nat)
    requires WellFormed(d) && s <= e <= |d.text| && endLine == LineOfOffset(d, e)
    requires k < |d.lines| && PieceFrom(d, s, k) <= e <= LineEnd(d.lines[k])
    requires d.lines[k].offset <= e && k <= endLine
    ensures !Scan(d, s, e, false, startLine, endLine, k, false).failed
    ensures Render(Scan(d, s, e, false, startLine, endLine, k, false).chunks) == Delimited(d, PieceFrom(d, s, k), e, k)
  {
    var p := PieceFrom(d, s, k);
    var scan := Scan(d, s, e, false, startLine, endLine, k, false);
    LineWithinText(d, k);
    assert !Elided(false, startLine, endLine, k);
    if k + 1 < |d.lines| {
      assert LineEnd(d.lines[k]) < d.lines[k + 1].offset;
    }
    LineOfOffsetUnique(d, e, k);
    var c := Content(k, d.text[p..e]);
    assert EmitLine(d, s, e, false, k) == Emitted([c]);
    assert Scan(d, s, e, false, startLine, endLine, k + 1, false) == Appended([], false);
    assert scan == Extend([c], Appended([], false));
    RenderOne(c);
    assert Render(scan.chunks) == d.text[p..e];
  }

  /** A range that ends in the delimiter of line k: the piece and "<br>". */
  lemma ScanPlainEnds(d: Document, s: nat, e: nat, startLine: nat, endLine: nat, k: nat)
    requires WellFormed(d) && s <= e <= |d.text| && endLine == LineOfOffset(d, e)
    requires k + 1 < |d.lines| && PieceFrom(d, s, k) <= LineEnd(d.lines[k]) < e < d.lines[k + 1].offset
    requires d.lines[k].offset <= e && k <= endLine
    ensures !Scan(d, s, e, false, startLine, endLine, k, false).failed
    ensures Render(Scan(d, s, e, false, startLine, endLine, k, false).chunks) == Delimited(d, PieceFrom(d, s, k), e, k)
  {
    LineWithinText(d, k);
    ScanPlainBreak(d, s, e, startLine, endLine, k);
    LineOfOffsetUnique(d, e, k);
    assert Scan(d, s, e, false, startLine, endLine, k + 1, false) == Appended([], false);
  }

  /** A range that runs into line k + 1 starts there as a whole line. */
  lemma ScanPlainNext(d: Document, s: nat, e: nat, endLine: nat, k: nat)
    requires WellFormed(d) && s <= e <= |d.text| && endLine == LineOfOffset(d, e)
    requires k + 1 < |d.lines| && PieceFrom(d, s, k) <= LineEnd(d.lines[k]) && d.lines[k + 1].offset <= e
    ensures PieceFrom(d, s, k + 1) == d.lines[k + 1].offset && k + 1 <= endLine
  {
    LineOfOffsetMonotone(d, d.lines[k + 1].offset, e);
    LineOfOffsetUnique(d, d.lines[k + 1].offset, k + 1);
  }

  /** Line k's piece and "<br>", then the rest of the range from line k + 1. */
  lemma ScanPlainJoin(d: Document, s: nat, e: nat, startLine: nat, endLine: nat, k: nat)
    requires WellFormed(d) && s <= e <= |d.text| && endLine == LineOfOffset(d, e)
    requires k + 1 < |d.lines| && PieceFrom(d, s, k) <= LineEnd(d.lines[k]) && d.lines[k + 1].offset <= e
    requires k < endLine
    requires !Scan(d, s, e, false, startLine, endLine, k + 1, false).failed
    requires Render(Scan(d, s, e, false, startLine, endLine, k + 1, false).chunks) == Delimited(d, d.lines[k + 1].offset, e, k + 1)
    ensures !Scan(d, s, e, false, startLine, endLine, k, false).failed
    ensures Render(Scan(d, s, e, false, startLine, endLine, k, false).chunks) == Delimited(d, PieceFrom(d, s, k), e, k)
  {
    var p := PieceFrom(d, s, k);
    LineWithinText(d, k);
    assert LineEnd(d.lines[k]) < d.lines[k + 1].offset;
    ScanPlainBreak(d, s, e, startLine, endLine, k);
    assert Delimited(d, p, e, k) == d.text[p..LineEnd(d.lines[k])] + "<br>" + Delimited(d, d.lines[k + 1].offset, e, k + 1);
  }

  /**
   * Outside surround mode the loop, from any line of the range on, renders
   * the rest of the range's text with "<br>" for each delimiter.
   */
  lemma {:induction false} ScanPlain(d: Document, s: nat, e: nat, startLine: nat, endLine: nat, k: nat)
    requires WellFormed(d) && s <= e <= |d.text| && endLine == LineOfOffset(d, e)
    requires k < |d.lines| && PieceFrom(d, s, k) <= LineEnd(d.lines[k])
    requires d.lines[k].offset <= e && k <= endLine
    ensures !Scan(d, s, e, false, startLine, endLine, k, false).failed
    ensures Render(Scan(d, s, e, false, startLine, endLine, k, false).chunks) == Delimited(d, PieceFrom(d, s, k), e, k)
    decreases |d.lines| - k
  {
    if e <= LineEnd(d.lines[k]) {
      ScanPlainLast(d, s, e, startLine, endLine, k);
    } else if e < d.lines[k + 1].offset {
      ScanPlainEnds(d, s, e, startLine, endLine, k);
    } else {
      ScanPlainNext(d, s, e, endLine, k);
      ScanPlain(d, s, e, startLine, endLine, k + 1);
      ScanPlainJoin(d, s, e, startLine, endLine, k);
    }
  }

  /**
   * Without surround mode, a range whose start is not inside a line delimiter
   * is previewed as its text, "<br>" standing for each line delimiter it
   * touches; nothing is elided and nothing throws.
   */
  lemma PlainPreview(d: Document, s: nat, e: nat)
    requires WellFormed(d) && s <= e <= |d.text| && s <= LineEnd(d.lines[LineOfOffset(d, s)])
    ensures !AppendedContent(d, s, e, false).failed
    ensures Render(AppendedContent(d, s, e, false).chunks) == Delimited(d, s, e, LineOfOffset(d, s))
  {
    var startLine := LineOfOffset(d, s);
    var endLine := LineOfOffset(d, e);
    assert PieceFrom(d, s, startLine) == s;
    LineOfOffsetMonotone(d, s, e);
    ScanPlain(d, s, e, startLine, endLine, startLine);
  }

  // ----- the difference loop: bold pairs, and what is ignored -----

  /** The "<b>" and "</b>" appends among the chunks, in order. */
  function BoldMarks(cs: seq<Chunk>): seq<Chunk> {
    if cs == [] then []
    else (if cs[0].BoldOpen? || cs[0].BoldClose? then [cs[0]] else []) + BoldMarks(cs[1..])
  }

  lemma {:induction false} BoldMarksConcat(a: seq<Chunk>, b: seq<Chunk>)
    ensures BoldMarks(a + b) == BoldMarks(a) + BoldMarks(b)
  {
    if a == [] {
      assert a + b == b;
    } else {
      var h := if a[0].BoldOpen? || a[0].BoldClose? then [a[0]] else [];
      assert (a + b)[0] == a[0];
      assert (a + b)[1..] == a[1..] + b;
      BoldMarksConcat(a[1..], b);
      assert BoldMarks(a + b) == h + (BoldMarks(a[1..]) + BoldMarks(b));
      assert BoldMarks(a) == h + BoldMarks(a[1..]);
    }
  }

  lemma {:induction false} BoldMarksNone(cs: seq<Chunk>)
    requires forall c | c in cs :: !c.BoldOpen? && !c.BoldClose?
    ensures BoldMarks(cs) == []
  {
    if cs != [] {
      assert cs[0] in cs;
      assert forall c | c in cs[1..] :: c in cs;
      BoldMarksNone(cs[1..]);
    }
  }

  /** appendContent never writes "<b>" or "</b>". */
  lemma ContentHasNoBold(d: Document, s: nat, e: nat, surround: bool)
    requires WellFormed(d)
    ensures BoldMarks(AppendedContent(d, s, e, surround).chunks) == []
  {
    if s <= |d.text| && e <= |d.text| {
      PreviewChunks(d, s, e, surround);
    }
    BoldMarksNone(AppendedContent(d, s, e, surround).chunks);
  }

  predicate IsPrefix(a: seq<Chunk>, b: seq<Chunk>) {
    |a| <= |b| && a == b[..|a|]
  }

  lemma PrefixExtend(m: seq<Chunk>, a: seq<Chunk>, b: seq<Chunk>)
    requires IsPrefix(a, b)
    ensures IsPrefix(m + a, m + b)
  {
    assert (m + b)[..|m + a|] == m + b[..|a|];
  }

  /** "<b></b>" n times. */
  function BoldPairs(n: nat): seq<Chunk> {
    if n == 0 then [] else [BoldOpen, BoldClose] + BoldPairs(n - 1)
  }

  /** How many differences are changes with a non-empty left side. */
  function HighlightCount(diffs: seq<Difference>): nat {
    if diffs == [] then 0 else (if IsHighlighted(diffs[0]) then 1 else 0) + HighlightCount(diffs[1..])
  }

  lemma ContributionBold(d: Document, diff: Difference)
    requires WellFormed(d)
    ensures BoldMarks(Contribution(d, diff).chunks) ==
              if !IsHighlighted(diff) then []
              else if Contribution(d, diff).failed then [BoldOpen]
              else [BoldOpen, BoldClose]
  {
    if IsHighlighted(diff) {
      var a := AppendedContent(d, diff.start, diff.end, false);
      ContentHasNoBold(d, diff.start, diff.end, false);
      BoldMarksConcat([BoldOpen], a.chunks);
      BoldMarksConcat([BoldOpen] + a.chunks, [BoldClose]);
      assert BoldMarks([BoldOpen]) == [BoldOpen] by { assert [BoldOpen][1..] == []; }
      assert BoldMarks([BoldClose]) == [BoldClose] by { assert [BoldClose][1..] == []; }
    } else if diff.kind == NoChange {
      ContentHasNoBold(d, diff.start, diff.end, true);
    }
  }

  /**
   * The preview's bold markers are "<b></b>" once per changed difference with
   * a non-empty left side, in order; when a BadLocationException cut the loop
   * short, they are a prefix of that.
   */
  lemma {:induction false} HighlightedBold(d: Document, diffs: seq<Difference>)
    requires WellFormed(d)
    ensures IsPrefix(BoldMarks(Highlighted(d, diffs).chunks), BoldPairs(HighlightCount(diffs)))
    ensures !Highlighted(d, diffs).failed ==> BoldMarks(Highlighted(d, diffs).chunks) == BoldPairs(HighlightCount(diffs))
  {
    if diffs == [] {
      assert BoldMarks(Highlighted(d, diffs).chunks) == [] == BoldPairs(HighlightCount(diffs));
    } else {
      var first, rest := Contribution(d, diffs[0]), Highlighted(d, diffs[1..]);
      var n := HighlightCount(diffs[1..]);
      assert Highlighted(d, diffs) == if first.failed then first else Extend(first.chunks, rest);
      assert HighlightCount(diffs) == (if IsHighlighted(diffs[0]) then 1 else 0) + n;
      ContributionBold(d, diffs[0]);
      HighlightedBold(d, diffs[1..]);
      BoldStep(first, rest, Highlighted(d, diffs), IsHighlighted(diffs[0]), n, HighlightCount(diffs));
    }
  }

  /** One step of HighlightedBold, on the appended values alone. */
  lemma BoldStep(first: Appended, rest: Appended, all: Appended, highlighted: bool, n: nat, total: nat)
    requires total == (if highlighted then 1 else 0) + n
    requires BoldMarks(first.chunks) == if !highlighted then [] else if first.failed then [BoldOpen] else [BoldOpen, BoldClose]
    requires all == if first.failed then first else Extend(first.chunks, rest)
    requires IsPrefix(BoldMarks(rest.chunks), BoldPairs(n))
    requires !rest.failed ==> BoldMarks(rest.chunks) == BoldPairs(n)
    ensures IsPrefix(BoldMarks(all.chunks), BoldPairs(total))
    ensures !all.failed ==> BoldMarks(all.chunks) == BoldPairs(total)
  {
    var m := BoldMarks(first.chunks);
    var pairs := BoldPairs(n);
    assert BoldPairs(total) == (if highlighted then [BoldOpen, BoldClose] else []) + pairs;
    if first.failed {
      assert m == [] || m == [BoldOpen];
      assert IsPrefix(m, (if highlighted then [BoldOpen, BoldClose] else []) + pairs);
    } else {
      assert BoldPairs(total) == m + pairs;
      BoldMarksConcat(first.chunks, rest.chunks);
      PrefixExtend(m, BoldMarks(rest.chunks), pairs);
    }
  }

  /** The differences the loop acts on: changes with a non-empty left side and unchanged ranges. */
  function Relevant(diffs: seq<Difference>): seq<Difference> {
    if diffs == [] then []
    else if IsHighlighted(diffs[0]) || diffs[0].kind == NoChange then [diffs[0]] + Relevant(diffs[1..])
    else Relevant(diffs[1..])
  }

  /** Differences of any other kind, and empty changes, contribute nothing to the preview. */
  lemma {:induction false} IrrelevantIgnored(d: Document, diffs: seq<Difference>)
    requires WellFormed(d)
    ensures Highlighted(d, Relevant(diffs)) == Highlighted(d, diffs)
  {
    if diffs != [] {
      IrrelevantIgnored(d, diffs[1..]);
      if IsHighlighted(diffs[0]) || diffs[0].kind == NoChange {
        var r := [diffs[0]] + Relevant(diffs[1..]);
        assert r[0] == diffs[0] && r[1..] == Relevant(diffs[1..]);
      } else {
        assert Contribution(d, diffs[0]) == Appended([], false);
        assert Extend([], Highlighted(d, diffs[1..])) == Highlighted(d, diffs[1..]);
      }
    }
  }
}
