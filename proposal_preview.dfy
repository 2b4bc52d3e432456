/**
 * The proposal information of a compilation unit correction proposal: an
 * HTML-like preview of the changed document in which changed regions are
 * bold and unchanged regions are shrunk to the lines around the changes.
 */
module ProposalPreview {
  import opened Wrappers
  import opened PreviewDocument

  /** How many context lines an unchanged range keeps next to a change. */
  const SurroundLines: nat := 1

  /**
   * java.lang.Character.isWhitespace: the Unicode space, line and paragraph
   * separators other than the no-break spaces, and the ASCII controls
   * HT, LF, VT, FF, CR and FS, GS, RS, US.
   */
  predicate IsWhitespace(c: char) {
    || ('\t' <= c <= '\r')
    || ('\U{1C}' <= c <= ' ')
    || c == '\U{1680}'
    || ('\U{2000}' <= c <= '\U{2006}')
    || ('\U{2008}' <= c <= '\U{200A}')
    || c == '\U{2028}' || c == '\U{2029}' || c == '\U{205F}' || c == '\U{3000}'
  }

  /** Strings.containsOnlyWhitespaces; true of the empty string. */
  predicate OnlyWhitespace(s: string) {
    forall k :: 0 <= k < |s| ==> IsWhitespace(s[k])
  }

  /**
   * What one call of appendContent adds to the buffer. `failed` means the
   * call ended in a BadLocationException after appending `chunks`.
   */
  datatype Appended = Appended(chunks: seq<Chunk>, failed: bool)

  function Extend(prefix: seq<Chunk>, a: Appended): Appended {
    Appended(prefix + a.chunks, a.failed)
  }

  /** What appendContent does with one line it does not elide. */
  datatype LineOutcome = Emitted(chunks: seq<Chunk>) | BadLocation

  /**
   * The piece of line i inside [s, e), followed by "<br>" when it reaches
   * the end of the line but not the end of the range. In surround mode a
   * blank piece that starts at the line start is dropped. A piece that would
   * end before it starts is the BadLocationException of IDocument.get.
   */
  function EmitLine(d: Document, s: nat, e: nat, surround: bool, i: nat): LineOutcome
    requires WellFormed(d) && i < |d.lines| && e <= |d.text|
  {
    var line := d.lines[i];
    var from := Max(line.offset, s);
    var to := Min(LineEnd(line), e);
    if to < from then BadLocation
    else
      var content := d.text[from..to];
      if surround && from == line.offset && OnlyWhitespace(content) then Emitted([])
      else Emitted([Content(i, content)] + if to == LineEnd(line) && to != e then [LineBreak] else [])
  }

  /** Whether the loop of appendContent elides line i in favour of "...<br>". */
  predicate Elided(surround: bool, startLine: nat, endLine: nat, i: nat) {
    surround && i - startLine > SurroundLines && endLine - i > SurroundLines
  }

  /**
   * The loop of appendContent from line i on. `startLine` is the value the
   * loop compares against (moved down for a range that starts the document)
   * and `dots` records whether "...<br>" was already appended.
   */
  function Scan(d: Document, s: nat, e: nat, surround: bool, startLine: nat, endLine: nat, i: nat, dots: bool): Appended
    requires WellFormed(d) && endLine < |d.lines| && e <= |d.text|
    decreases endLine + 1 - i
  {
    if i > endLine then Appended([], false)
    else if Elided(surround, startLine, endLine, i) then
      if !dots then Extend([Elision], Scan(d, s, e, surround, startLine, endLine, i + 1, true))
      else if e == |d.text| then Appended([], false)
      else Scan(d, s, e, surround, startLine, endLine, i + 1, dots)
    else
      match EmitLine(d, s, e, surround, i)
      case BadLocation => Appended([], true)
      case Emitted(cs) => Extend(cs, Scan(d, s, e, surround, startLine, endLine, i + 1, dots))
  }

  /**
   * The body of the loop of appendContent for a line it does not elide:
   * what that line appends, or false for the BadLocationException of get.
   */
  method AppendLine(d: Document, s: nat, e: nat, surround: bool, i: nat) returns (emitted: seq<Chunk>, ok: bool)
    requires WellFormed(d) && i < |d.lines| && e <= |d.text|
    ensures ok == EmitLine(d, s, e, surround, i).Emitted?
    ensures ok ==> emitted == EmitLine(d, s, e, surround, i).chunks
  {
    emitted := [];
    var line := d.lines[i];
    var from := Max(line.offset, s);
    var to := Min(LineEnd(line), e);
    if to < from {
      return emitted, false;  // get(from, to - from) throws BadLocationException
    }
    LineWithinText(d, i);
    var content := d.text[from..to];
    if surround && from == line.offset && OnlyWhitespace(content) {
      return emitted, true;  // blank lines are dropped unless the range starts inside them
    }
    emitted := emitted + [Content(i, content)];
    if to == LineEnd(line) && to != e {
      emitted := emitted + [LineBreak];
    }
    return emitted, true;
  }

  lemma ExtendStep(out: seq<Chunk>, piece: seq<Chunk>, next: Appended, total: Appended)
    requires Extend(out, Extend(piece, next)) == total
    ensures Extend(out + piece, next) == total
  {
    assert (out + piece) + next.chunks == out + (piece + next.chunks);
  }

  /** The first line appendContent emits: moved to the context line above the end when the range starts the document. */
  function FirstLine(d: Document, s: nat, e: nat, surround: bool): nat
    requires WellFormed(d) && s <= |d.text| && e <= |d.text|
  {
    var endLine := LineOfOffset(d, e);
    if surround && s == 0 then (if endLine >= SurroundLines then endLine - SurroundLines else 0)
    else LineOfOffset(d, s)
  }

  /** Everything one call appendContent(d, s, e, buf, surround) appends to buf. */
  function AppendedContent(d: Document, s: nat, e: nat, surround: bool): Appended
    requires WellFormed(d)
  {
    if s > |d.text| || e > |d.text| then Appended([], true)
    else
      var endLine := LineOfOffset(d, e);
      var startLine := FirstLine(d, s, e, surround);
      if surround && s == 0 then Extend([Elision], Scan(d, s, e, true, startLine, endLine, startLine, true))
      else Scan(d, s, e, surround, startLine, endLine, startLine, false)
  }

  /**
   * appendContent: appends the text of the range [s, e) of d to buf, one
   * piece per line, with "<br>" for each line break inside the range. In
   * surround mode only the lines next to either end of the range are kept,
   * the rest being replaced once by "...<br>", and blank lines are dropped.
   */
  /** The loop of appendContent: lines `i` to `endLine`, appended to `buf`. */
  method AppendLines(d: Document, s: nat, e: nat, surround: bool, startLine: nat, endLine: nat,
                     i0: nat, dots0: bool, buf: seq<Chunk>) returns (out: seq<Chunk>, ok: bool)
    requires WellFormed(d) && endLine < |d.lines| && e <= |d.text|
    ensures out == buf + Scan(d, s, e, surround, startLine, endLine, i0, dots0).chunks
    ensures ok == !Scan(d, s, e, surround, startLine, endLine, i0, dots0).failed
  {
    out := buf;
    var i, dotsAdded := i0, dots0;
    ghost var total := Scan(d, s, e, surround, startLine, endLine, i0, dots0);
    while i <= endLine
      invariant Extend(out, Scan(d, s, e, surround, startLine, endLine, i, dotsAdded)) == Extend(buf, total)
      decreases endLine + 1 - i
    {
      if Elided(surround, startLine, endLine, i) {
        if !dotsAdded {
          ExtendStep(out, [Elision], Scan(d, s, e, surround, startLine, endLine, i + 1, true), Extend(buf, total));
          out := out + [Elision];
          dotsAdded := true;
        } else if e == |d.text| {
          return out, true;  // no context lines at the bottom of the document
        }
        i := i + 1;
        continue;
      }
      var emitted, lineOk := AppendLine(d, s, e, surround, i);
      if !lineOk {
        return out, false;
      }
      ExtendStep(out, emitted, Scan(d, s, e, surround, startLine, endLine, i + 1, dotsAdded), Extend(buf, total));
      out := out + emitted;
      i := i + 1;
    }
    return out, true;
  }

  method AppendContent(d: Document, s: nat, e: nat, buf: seq<Chunk>, surround: bool) returns (out: seq<Chunk>, ok: bool)
    requires WellFormed(d)
    ensures out == buf + AppendedContent(d, s, e, surround).chunks
    ensures ok == !AppendedContent(d, s, e, surround).failed
  {
    out := buf;
    if s > |d.text| || e > |d.text| {
      return out, false;  // getLineOfOffset throws BadLocationException
    }
    var startLine := LineOfOffset(d, s);
    var endLine := LineOfOffset(d, e);
    var dotsAdded := false;
    if surround && s == 0 {
      startLine := if endLine >= SurroundLines then endLine - SurroundLines else 0;
      out := out + [Elision];
      dotsAdded := true;
    }
    assert startLine == FirstLine(d, s, e, surround);
    out, ok := AppendLines(d, s, e, surround, startLine, endLine, startLine, dotsAdded, out);
  }

  // ----- the difference loop of getAdditionalProposalInfo -----

  /** RangeDifference.kind(): NOCHANGE, CHANGE, or any other kind. */
  datatype DiffKind = NoChange | Change | OtherKind

  /**
   * A range difference between the preview and the current content, with the
   * left side's token range already turned into the character offsets start
   * and end of the preview document.
   */
  datatype Difference = Difference(kind: DiffKind, leftLength: nat, start: nat, end: nat)

  predicate IsHighlighted(diff: Difference) {
    diff.kind == Change && diff.leftLength > 0
  }

  /** "<b>", the content, and "</b>" unless the content failed. */
  function Bold(a: Appended): Appended {
    if a.failed then Extend([BoldOpen], a) else Appended([BoldOpen] + a.chunks + [BoldClose], false)
  }

  /**
   * What the loop appends for one difference: a changed range in bold, an
   * unchanged range in surround mode, nothing otherwise. A failing
   * appendContent leaves the closing "</b>" out.
   */
  function Contribution(d: Document, diff: Difference): Appended
    requires WellFormed(d)
  {
    if IsHighlighted(diff) then Bold(AppendedContent(d, diff.start, diff.end, false))
    else if diff.kind == NoChange then AppendedContent(d, diff.start, diff.end, true)
    else Appended([], false)
  }

  /** The buffer the loop fills for these differences; it stops at the first failure. */
  function Highlighted(d: Document, diffs: seq<Difference>): Appended
    requires WellFormed(d)
  {
    if diffs == [] then Appended([], false)
    else
      var first := Contribution(d, diffs[0]);
      if first.failed then first else Extend(first.chunks, Highlighted(d, diffs[1..]))
  }

  /** The body of the difference loop: appends one difference's contribution to buf. */
  method AppendDifference(d: Document, diff: Difference, buf: seq<Chunk>) returns (out: seq<Chunk>, ok: bool)
    requires WellFormed(d)
    ensures out == buf + Contribution(d, diff).chunks
    ensures ok == !Contribution(d, diff).failed
  {
    out, ok := buf, true;
    if IsHighlighted(diff) {
      out, ok := AppendBold(d, diff.start, diff.end, buf);
    } else if diff.kind == NoChange {
      out, ok := AppendContent(d, diff.start, diff.end, buf, true);
    }
  }

  /** A changed range: "<b>", its content, and "</b>" when the content did not throw. */
  method AppendBold(d: Document, s: nat, e: nat, buf: seq<Chunk>) returns (out: seq<Chunk>, ok: bool)
    requires WellFormed(d)
    ensures out == buf + Bold(AppendedContent(d, s, e, false)).chunks
    ensures ok == !Bold(AppendedContent(d, s, e, false)).failed
  {
    ghost var a := AppendedContent(d, s, e, false);
    out, ok := AppendContent(d, s, e, buf + [BoldOpen], false);
    BoldAppended(buf, a);
    if ok {
      out := out + [BoldClose];
    }
  }

  lemma BoldAppended(buf: seq<Chunk>, a: Appended)
    ensures !a.failed ==> buf + Bold(a).chunks == buf + [BoldOpen] + a.chunks + [BoldClose]
    ensures a.failed ==> buf + Bold(a).chunks == buf + [BoldOpen] + a.chunks
    ensures Bold(a).failed == a.failed
  {
    assert buf + ([BoldOpen] + a.chunks + [BoldClose]) == buf + [BoldOpen] + a.chunks + [BoldClose];
    assert buf + ([BoldOpen] + a.chunks) == buf + [BoldOpen] + a.chunks;
  }

  /**
   * The loop of getAdditionalProposalInfo over the differences. A
   * BadLocationException ends the loop, and the buffer built so far is the
   * result.
   */
  method PreviewDifferences(d: Document, diffs: seq<Difference>) returns (buf: seq<Chunk>)
    requires WellFormed(d)
    ensures buf == Highlighted(d, diffs).chunks
  {
    buf := [];
    var i := 0;
    while i < |diffs|
      invariant i <= |diffs|
      invariant Extend(buf, Highlighted(d, diffs[i..])) == Highlighted(d, diffs)
    {
      assert diffs[i..][0] == diffs[i] && diffs[i..][1..] == diffs[i + 1..];
      var out, ok := AppendDifference(d, diffs[i], buf);
      if !ok {
        return out;
      }
      ExtendStep(buf, Contribution(d, diffs[i]).chunks, Highlighted(d, diffs[i + 1..]), Highlighted(d, diffs));
      buf := out;
      i := i + 1;
    }
    assert diffs[i..] == [];
  }
}
