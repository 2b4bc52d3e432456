/**
 * The line-structured text document (IDocument) that a correction proposal
 * previews, and the string buffer the preview is written into.
 *
 * A document is its text plus a line table: each line has an offset and the
 * length of its content, excluding the line delimiter. Every line but the
 * last is followed by a delimiter of at least one character; the last line
 * ends the text.
 */
module PreviewDocument {
  import opened Wrappers

  datatype LineInfo = LineInfo(offset: nat, length: nat)

  datatype Document = Document(text: string, lines: seq<LineInfo>)

  /** Offset just past the content of a line, where its delimiter starts. */
  function LineEnd(l: LineInfo): nat { l.offset + l.length }

  ghost predicate WellFormed(d: Document) {
    && |d.lines| > 0
    && d.lines[0].offset == 0
    && (forall i :: 0 <= i < |d.lines| - 1 ==> LineEnd(d.lines[i]) < d.lines[i + 1].offset)
    && LineEnd(d.lines[|d.lines| - 1]) == |d.text|
  }

  /** Content and delimiter of a line lie before every later line. */
  lemma {:induction false} LinesIncrease(d: Document, i: nat, j: nat)
    requires WellFormed(d) && i < j < |d.lines|
    ensures LineEnd(d.lines[i]) < d.lines[j].offset
    decreases j - i
  {
    if i + 1 < j {
      LinesIncrease(d, i + 1, j);
    }
  }

  lemma LineWithinText(d: Document, i: nat)
    requires WellFormed(d) && i < |d.lines|
    ensures LineEnd(d.lines[i]) <= |d.text|
  {
    if i < |d.lines| - 1 {
      LinesIncrease(d, i, |d.lines| - 1);
    }
  }

  /**
   * IDocument.getLineOfOffset: the line an offset belongs to. An offset inside
   * a delimiter belongs to the line the delimiter ends; the text length
   * belongs to the last line.
   */
  function LineOfOffset(d: Document, o: nat): (i: nat)
    requires WellFormed(d) && o <= |d.text|
    ensures i < |d.lines| && d.lines[i].offset <= o
    ensures i + 1 < |d.lines| ==> o < d.lines[i + 1].offset
  {
    LineFrom(d, o, 0)
  }

  function LineFrom(d: Document, o: nat, k: nat): (i: nat)
    requires WellFormed(d) && k < |d.lines| && d.lines[k].offset <= o
    ensures k <= i < |d.lines| && d.lines[i].offset <= o
    ensures i + 1 < |d.lines| ==> o < d.lines[i + 1].offset
    decreases |d.lines| - k
  {
    if k + 1 < |d.lines| && d.lines[k + 1].offset <= o then LineFrom(d, o, k + 1) else k
  }

  /** The characterisation of LineOfOffset has only one solution. */
  lemma LineOfOffsetUnique(d: Document, o: nat, j: nat)
    requires WellFormed(d) && o <= |d.text| && j < |d.lines|
    requires d.lines[j].offset <= o && (j + 1 < |d.lines| ==> o < d.lines[j + 1].offset)
    ensures LineOfOffset(d, o) == j
  {
    var i := LineOfOffset(d, o);
    if i + 1 < j {
      LinesIncrease(d, i + 1, j);
    } else if j + 1 < i {
      LinesIncrease(d, j + 1, i);
    }
  }

  /** Line 0 starts the text, so offset 0 belongs to it. */
  lemma LineOfOffsetZero(d: Document)
    requires WellFormed(d)
    ensures LineOfOffset(d, 0) == 0
  {
    LineOfOffsetUnique(d, 0, 0);
  }

  /** A later offset never belongs to an earlier line. */
  lemma LineOfOffsetMonotone(d: Document, o1: nat, o2: nat)
    requires WellFormed(d) && o1 <= o2 <= |d.text|
    ensures LineOfOffset(d, o1) <= LineOfOffset(d, o2)
  {
    var i, j := LineOfOffset(d, o1), LineOfOffset(d, o2);
    if j + 1 < i {
      LinesIncrease(d, j + 1, i);
    }
  }

  /**
   * One append to the preview's StringBuffer. A piece of line content keeps
   * the number of the line it was cut from; the rendered string drops it.
   */
  datatype Chunk =
    | Content(line: nat, text: string)
    | LineBreak      // "<br>"
    | Elision        // "...<br>"
    | BoldOpen       // "<b>"
    | BoldClose      // "</b>"

  function ChunkText(c: Chunk): string {
    match c
    case Content(_, t) => t
    case LineBreak => "<br>"
    case Elision => "...<br>"
    case BoldOpen => "<b>"
    case BoldClose => "</b>"
  }

  /** The string a StringBuffer holds after the given appends. */
  function Render(cs: seq<Chunk>): string {
    if cs == [] then "" else ChunkText(cs[0]) + Render(cs[1..])
  }

  /** Appending to the buffer appends to its string. */
  lemma {:induction false} RenderConcat(a: seq<Chunk>, b: seq<Chunk>)
    ensures Render(a + b) == Render(a) + Render(b)
  {
    if a != [] {
      assert (a + b)[1..] == a[1..] + b;
      RenderConcat(a[1..], b);
    } else {
      assert a + b == b;
    }
  }
}
