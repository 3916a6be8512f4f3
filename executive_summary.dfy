/** The executive brief: the summary text, one block per line. */
module ExecutiveSummary {
  import opened JsValues
  import opened JsStrings

  /** A `<br />` for a blank line, a `<p>` holding the trimmed text otherwise. */
  datatype Block = LineBreak | Paragraph(text: string)

  /** The block of one line: a break exactly when the line is blank, else a
      paragraph with the line's text, whitespace cut from both ends. */
  function FormatLine(line: string): (b: Block)
    ensures b.LineBreak? <==> AllWhitespace(line)
    ensures b.Paragraph? ==> b.text == Trim(line) && b.text != []
    ensures b.Paragraph? ==> !IsJsWhitespace(b.text[0]) && !IsJsWhitespace(b.text[|b.text| - 1])
  {
    var trimmedLine := Trim(line);
    if trimmedLine == [] then LineBreak else Paragraph(trimmedLine)
  }

  /** `formatSummaryContent(text)`: nothing for an empty text, else one block
      per `\n`-separated line, in order. */
  function FormatSummaryContent(text: string): (r: Option<seq<Block>>)
    ensures r.None? <==> text == []
    ensures r.Some? ==> |r.value| == Occurrences(text, '\n') + 1
    ensures r.Some? ==> forall i :: 0 <= i < |r.value| ==>
      && (r.value[i].LineBreak? <==> AllWhitespace(Split(text, '\n')[i]))
      && (r.value[i].Paragraph? ==> r.value[i].text == Trim(Split(text, '\n')[i]))
  {
    if text == [] then None
    else
      var lines := Split(text, '\n');
      Some(seq(|lines|, i requires 0 <= i < |lines| => FormatLine(lines[i])))
  }

  /** The paragraph texts of a summary. */
  function ParagraphTexts(blocks: seq<Block>): seq<string> {
    if blocks == [] then []
    else (if blocks[0].Paragraph? then [blocks[0].text] else []) + ParagraphTexts(blocks[1..])
  }

  /** Trimming a line with no whitespace at either end leaves it unchanged. */
  lemma TrimOfTrimmed(line: string)
    requires line != [] && !IsJsWhitespace(line[0]) && !IsJsWhitespace(line[|line| - 1])
    ensures Trim(line) == line
  {
    var start := TrimIsSlice(line);
  }

  /** A summary whose lines are all non-blank and already trimmed comes back
      whole: its paragraphs, joined by newlines, are the text. */
  lemma TrimmedSummaryRoundTrip(text: string)
    requires text != []
    requires forall i :: 0 <= i < |Split(text, '\n')| ==>
      var line := Split(text, '\n')[i];
      line != [] && !IsJsWhitespace(line[0]) && !IsJsWhitespace(line[|line| - 1])
    ensures FormatSummaryContent(text).Some?
    ensures Join(ParagraphTexts(FormatSummaryContent(text).value), '\n') == text
  {
    var lines := Split(text, '\n');
    var blocks := seq(|lines|, i requires 0 <= i < |lines| => FormatLine(lines[i]));
    assert FormatSummaryContent(text) == Some(blocks);
    forall i | 0 <= i < |lines| ensures blocks[i] == Paragraph(lines[i]) {
      TrimOfTrimmed(lines[i]);
    }
    AllParagraphs(blocks, lines);
    assert Join(lines, '\n') == text;
  }

  lemma {:induction false} AllParagraphs(blocks: seq<Block>, lines: seq<string>)
    requires |blocks| == |lines|
    requires forall i :: 0 <= i < |lines| ==> blocks[i] == Paragraph(lines[i])
    ensures ParagraphTexts(blocks) == lines
  {
    if blocks != [] {
      AllParagraphs(blocks[1..], lines[1..]);
      assert lines == [lines[0]] + lines[1..];
    }
  }
}
