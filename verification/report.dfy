/**
 * `generate_pdf_report`: the list of flowables handed to ReportLab. The
 * document layout and `doc.build` itself are not modelled; the list is.
 */
module Report {
  import opened PyText

  /** The three entries of ReportLab's sample style sheet the report uses. */
  datatype Style = Title | Heading2 | BodyText

  /** The two flowable kinds the report is built from. */
  datatype Flowable = Paragraph(text: string, style: Style) | Spacer(width: int, height: int)

  const ReportPath := "analysis_report.pdf"
  const ResultsHeading := "Analysis Results:"
  const Gap := Spacer(1, 12)

  /** `if line.strip()`: a line is kept when it is not all whitespace (see KeptIffStripped). */
  predicate Kept(line: string) {
    !IsBlank(line)
  }

  /** The lines the comprehension keeps, unchanged and in order. */
  function KeptLines(lines: seq<string>): (kept: seq<string>)
    ensures |kept| <= |lines|
    ensures forall k :: 0 <= k < |kept| ==> Kept(kept[k])
  {
    if lines == [] then []
    else
      var last := lines[|lines| - 1];
      KeptLines(lines[..|lines| - 1]) + (if Kept(last) then [last] else [])
  }

  /** The positions of the kept lines, in increasing order. */
  function KeptIndices(lines: seq<string>): (idx: seq<nat>)
    ensures forall k :: 0 <= k < |idx| ==> idx[k] < |lines| && Kept(lines[idx[k]])
    ensures forall k, l :: 0 <= k < l < |idx| ==> idx[k] < idx[l]
    ensures forall j :: 0 <= j < |lines| && Kept(lines[j]) ==> j in idx
  {
    if lines == [] then []
    else
      var n := |lines| - 1;
      var init := KeptIndices(lines[..n]);
      assert forall k :: 0 <= k < |init| ==> lines[..n][init[k]] == lines[init[k]];
      init + (if Kept(lines[n]) then [n] else [])
  }

  /** The paragraphs of the analysis text: one BodyText paragraph per kept line. */
  function BodyParagraphs(analysisText: string): seq<Flowable> {
    var kept := KeptLines(Split(analysisText));
    seq(|kept|, k requires 0 <= k < |kept| => Paragraph(kept[k], BodyText))
  }

  /** The element list: title, gap, heading, gap, the body paragraphs, gap. */
  function ReportElements(analysisText: string, title: string): seq<Flowable> {
    [Paragraph(title, Title), Gap, Paragraph(ResultsHeading, Heading2), Gap]
      + BodyParagraphs(analysisText) + [Gap]
  }

  /**
   * `generate_pdf_report` as written: the element list built by successive
   * appends and one extend, and the fixed path of the document.
   */
  method GeneratePdfReport(analysisText: string, title: string) returns (pdfPath: string, elements: seq<Flowable>)
    ensures pdfPath == ReportPath
    ensures elements == ReportElements(analysisText, title)
  {
    pdfPath := ReportPath;
    elements := [];
    elements := elements + [Paragraph(title, Title)];
    elements := elements + [Gap];
    elements := elements + [Paragraph(ResultsHeading, Heading2)];
    elements := elements + [Gap];
    var analysisParagraphs := BodyParagraphs(analysisText);
    elements := elements + analysisParagraphs;
    elements := elements + [Gap];
  }

  /**
   * The kept lines are exactly the lines at the kept positions: every line
   * whose stripped form is non-empty, unmodified, in input order, and no other.
   */
  lemma {:induction false} KeptLinesExactly(lines: seq<string>)
    ensures |KeptLines(lines)| == |KeptIndices(lines)|
    ensures forall k :: 0 <= k < |KeptLines(lines)| ==> KeptLines(lines)[k] == lines[KeptIndices(lines)[k]]
  {
    if lines != [] {
      var n := |lines| - 1;
      var init := lines[..n];
      KeptLinesExactly(init);
      var idx := KeptIndices(init);
      assert forall k :: 0 <= k < |idx| ==> init[idx[k]] == lines[idx[k]];
    }
  }

  /** A line is kept exactly when stripping it leaves something. */
  lemma KeptIffStripped(line: string)
    ensures Kept(line) <==> Strip(line) != ""
  {
    StripEmptyIffBlank(line);
  }

  /** Filtering distributes over concatenation. */
  lemma {:induction false} KeptLinesAppend(a: seq<string>, b: seq<string>)
    ensures KeptLines(a + b) == KeptLines(a) + KeptLines(b)
  {
    if b != [] {
      var n := |b| - 1;
      KeptLinesAppend(a, b[..n]);
      assert (a + b)[..|a + b| - 1] == a + b[..n];
    } else {
      assert a + b == a;
    }
  }

  /**
   * The report holds the title, the heading, one paragraph per kept line and
   * three spacers: 4 + k + 1 elements for k kept lines.
   */
  lemma ReportLayout(analysisText: string, title: string)
    ensures var kept := KeptLines(Split(analysisText));
      var es := ReportElements(analysisText, title);
      |es| == |kept| + 5 &&
      es[0] == Paragraph(title, Title) && es[1] == Gap &&
      es[2] == Paragraph("Analysis Results:", Heading2) && es[3] == Gap &&
      (forall k :: 0 <= k < |kept| ==> es[4 + k] == Paragraph(kept[k], BodyText)) &&
      es[|es| - 1] == Gap
  {
  }

  /** A text without line breaks gives one paragraph when it is not blank, none when it is. */
  lemma SingleLineText(analysisText: string)
    requires NoNewline(analysisText)
    ensures BodyParagraphs(analysisText) ==
      if IsBlank(analysisText) then [] else [Paragraph(analysisText, BodyText)]
  {
    SplitWithoutNewline(analysisText);
    assert [analysisText][..0] == [];
  }
}
