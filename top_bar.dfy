/**
 * src/top-bar.ts, `linesToCopyText`: the text the copy-all button puts on
 * the clipboard, the input lines' texts joined by newlines.
 */
module TopBar {
  import opened Wrappers
  import opened JsString
  import opened Dom

  /** The filter of linesToCopyText: the line's `pfx` attribute is exactly "input". */
  predicate IsInputLine(line: Element, pfx: string) {
    GetAttribute(line, pfx) == Some("input")
  }

  /** The input lines' texts, in order: the filter, then the map to the text. */
  function InputTexts(lines: seq<Element>, pfx: string): (texts: seq<string>)
    ensures |texts| <= |lines|
  {
    if lines == [] then []
    else (if IsInputLine(lines[0], pfx) then [lines[0].text] else []) + InputTexts(lines[1..], pfx)
  }

  /** linesToCopyText. */
  function LinesToCopyText(lines: seq<Element>, pfx: string): string {
    Join(InputTexts(lines, pfx), "\n")
  }

  /** The filter keeps order: the texts of a concatenation are the texts of each part, in turn. */
  lemma {:induction false} InputTextsAppend(a: seq<Element>, b: seq<Element>, pfx: string)
    ensures InputTexts(a + b, pfx) == InputTexts(a, pfx) + InputTexts(b, pfx)
  {
    if a == [] {
      assert a + b == b;
    } else {
      var first := if IsInputLine(a[0], pfx) then [a[0].text] else [];
      assert (a + b)[0] == a[0] && (a + b)[1..] == a[1..] + b;
      assert InputTexts(a + b, pfx) == first + InputTexts(a[1..] + b, pfx);
      InputTextsAppend(a[1..], b, pfx);
      assert InputTexts(a, pfx) == first + InputTexts(a[1..], pfx);
    }
  }

  /** There are no texts exactly when no line is an input line. */
  lemma {:induction false} NoInputTexts(lines: seq<Element>, pfx: string)
    ensures InputTexts(lines, pfx) == [] <==> forall j :: 0 <= j < |lines| ==> !IsInputLine(lines[j], pfx)
  {
    if lines != [] {
      NoInputTexts(lines[1..], pfx);
      assert forall j :: 1 <= j < |lines| ==> lines[j] == lines[1..][j - 1];
    }
  }

  /** A line that is not an input line (no attribute, "", "progress", ...) adds nothing. */
  lemma OtherLineIgnored(a: seq<Element>, line: Element, b: seq<Element>, pfx: string)
    requires GetAttribute(line, pfx) != Some("input")
    ensures LinesToCopyText(a + [line] + b, pfx) == LinesToCopyText(a + b, pfx)
  {
    assert InputTexts([line], pfx) == [] by {
      assert [line][1..] == [];
    }
    InputTextsAppend(a + [line], b, pfx);
    InputTextsAppend(a, [line], pfx);
    InputTextsAppend(a, b, pfx);
    assert InputTexts(a, pfx) + [] == InputTexts(a, pfx);
  }

  /** Without input lines the copy text is empty. */
  lemma NoInputLines(lines: seq<Element>, pfx: string)
    requires forall j :: 0 <= j < |lines| ==> !IsInputLine(lines[j], pfx)
    ensures LinesToCopyText(lines, pfx) == ""
  {
    NoInputTexts(lines, pfx);
  }

  /** With exactly one input line the copy text is that line's text, unchanged. */
  lemma OneInputLine(lines: seq<Element>, pfx: string, j: nat)
    requires j < |lines| && IsInputLine(lines[j], pfx)
    requires forall k :: 0 <= k < |lines| && k != j ==> !IsInputLine(lines[k], pfx)
    ensures LinesToCopyText(lines, pfx) == lines[j].text
  {
    var before, after := lines[..j], lines[j + 1..];
    assert lines == before + [lines[j]] + after;
    assert forall k :: 0 <= k < |before| ==> before[k] == lines[k];
    assert forall k :: 0 <= k < |after| ==> after[k] == lines[j + 1 + k];
    NoInputTexts(before, pfx);
    NoInputTexts(after, pfx);
    InputTextsAppend(before + [lines[j]], after, pfx);
    InputTextsAppend(before, [lines[j]], pfx);
  }

  /**
   * With k >= 1 input lines the copy text is k - 1 newlines longer than the
   * texts together, and when no text holds a newline, splitting the copy
   * text on newlines gives the texts back.
   */
  lemma CopyTextSeparators(lines: seq<Element>, pfx: string)
    requires InputTexts(lines, pfx) != []
    ensures var texts := InputTexts(lines, pfx);
      |LinesToCopyText(lines, pfx)| == SumLengths(texts) + |texts| - 1
    ensures var texts := InputTexts(lines, pfx);
      (forall k :: 0 <= k < |texts| ==> '\n' !in texts[k]) ==> Split(LinesToCopyText(lines, pfx), '\n') == texts
  {
    var texts := InputTexts(lines, pfx);
    JoinLength(texts, "\n");
    if forall k :: 0 <= k < |texts| ==> '\n' !in texts[k] {
      SplitJoin(texts, '\n');
    }
  }
}
