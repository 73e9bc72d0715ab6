/**
 * src/terminhtml.ts: the TerminHTML facade. It merges the options, splits
 * the container's inner markup into lines, classifies each line as a
 * comment, a prompt, a custom prompt or plain output, and hands the
 * resulting LineData list to a Termynal.
 */
module TerminHtml {
  import opened Wrappers
  import opened JsString
  import opened Dom
  import opened DomUtils
  import opened LineRecords
  import opened TermynalConfig
  import TermynalPlayback
  import TermynalEngine

  // ---------------------------------------------------------------------------
  // Options

  /** The merged options: the three TerminHTML-specific fields after defaults. */
  datatype Options = Options(promptLiteralStart: string, customPromptLiteralStart: string, initNow: bool)

  /** `Partial<TerminHTMLOptions>`: a field is None when the caller left it out. */
  datatype UserOptions = UserOptions(
    startDelay: Option<nat>,
    typeDelay: Option<nat>,
    lineDelay: Option<nat>,
    cursor: Option<string>,
    initNow: Option<bool>,
    promptLiteralStart: Option<string>,
    customPromptLiteralStart: Option<string>)

  const NoUserOptions := UserOptions(None, None, None, None, None, None, None)

  const DefaultOptions := Options("$ ", "# ", false)

  /** `{ ...defaultOptions, ...options }`: a field the caller gives wins over the default. */
  function MergeOptions(u: UserOptions): (o: Options)
    ensures o.promptLiteralStart == u.promptLiteralStart.GetOr(DefaultOptions.promptLiteralStart)
    ensures o.customPromptLiteralStart == u.customPromptLiteralStart.GetOr(DefaultOptions.customPromptLiteralStart)
    ensures o.initNow == u.initNow.GetOr(DefaultOptions.initNow)
  {
    Options(
      u.promptLiteralStart.GetOr(DefaultOptions.promptLiteralStart),
      u.customPromptLiteralStart.GetOr(DefaultOptions.customPromptLiteralStart),
      u.initNow.GetOr(DefaultOptions.initNow))
  }

  /** With no options at all, the merged options are "$ ", "# " and a deferred start. */
  lemma MergeOfNothingIsDefault()
    ensures MergeOptions(NoUserOptions) == Options("$ ", "# ", false)
  {
  }

  /**
   * The Termynal options the constructor builds: the caller's fields other
   * than initNow, `noInit = !initNow`, and the classified lines. initNow is
   * read from the caller's options, so a missing initNow gives noInit = true.
   */
  function ToTermynalOptions(u: UserOptions, lineData: seq<LineData>): (t: TermynalOptions)
    ensures t.noInit == Some(!(u.initNow == Some(true)))
    ensures t.lineData == Some(lineData)
    ensures t.prefix.None? && t.startDelay == u.startDelay && t.typeDelay == u.typeDelay
      && t.lineDelay == u.lineDelay && t.cursor == u.cursor
  {
    TermynalOptions(
      prefix := None, startDelay := u.startDelay, typeDelay := u.typeDelay, lineDelay := u.lineDelay,
      progressLength := None, progressChar := None, progressPercent := None, cursor := u.cursor,
      lineData := Some(lineData), noInit := Some(!(u.initNow == Some(true))), autoScroll := None)
  }

  // ---------------------------------------------------------------------------
  // Visible text

  /** getTextContentFromStringPossiblyContainingHTML: the string itself unless it holds markup. */
  function TextContent(s: string, html: Html): (t: string)
    ensures !StringHasHtmlElements(s) ==> t == s
    ensures StringHasHtmlElements(s) ==> t == html.textContent(s)
  {
    if !StringHasHtmlElements(s) then s else html.textContent(s)
  }

  /** textContentStartsWith. */
  predicate TextContentStartsWith(s: string, p: string, html: Html) {
    StartsWith(TextContent(s, html), p)
  }

  // ---------------------------------------------------------------------------
  // applyReplacements

  /** A string search value and its literal replacement. */
  datatype Replacement = Replacement(searchValue: string, replaceValue: string)

  /** applyReplacements: `reduce` applies each replacement, in order, to the running result. */
  function ApplyReplacements(s: string, reps: seq<Replacement>): string
    decreases |reps|
  {
    if reps == [] then s
    else ApplyReplacements(ReplaceFirst(s, reps[0].searchValue, reps[0].replaceValue), reps[1..])
  }

  /** Applying a concatenation of replacement lists applies the first list, then the second. */
  lemma {:induction false} ApplyReplacementsAppend(s: string, a: seq<Replacement>, b: seq<Replacement>)
    ensures ApplyReplacements(s, a + b) == ApplyReplacements(ApplyReplacements(s, a), b)
    decreases |a|
  {
    if a != [] {
      assert (a + b)[0] == a[0] && (a + b)[1..] == a[1..] + b;
      ApplyReplacementsAppend(ReplaceFirst(s, a[0].searchValue, a[0].replaceValue), a[1..], b);
    } else {
      assert a + b == b;
    }
  }

  /** A single replacement is String.prototype.replace: only the first occurrence goes. */
  lemma ApplyOneReplacement(s: string, r: Replacement)
    ensures ApplyReplacements(s, [r]) == ReplaceFirst(s, r.searchValue, r.replaceValue)
  {
    assert [r][1..] == [];
  }

  // ---------------------------------------------------------------------------
  // createTermynalValueFromPossiblyHTMLString

  /** The options of createTermynalValueFromPossiblyHTMLString. */
  datatype ValueOptions = ValueOptions(replacements: seq<Replacement>, inputType: bool, prompt: Option<string>)

  const NoElementFound := "No element found in string"

  /** The scratch element after its text and attributes are set. */
  function DecoratedElement(e: Element, opts: ValueOptions): Element {
    var e1 := e.(text := ApplyReplacements(e.text, opts.replacements));
    var e2 := if opts.inputType then SetAttribute(e1, "data-ty", "input") else e1;
    if opts.prompt.Some? && opts.prompt.value != "" then SetAttribute(e2, "data-ty-prompt", opts.prompt.value) else e2
  }

  /** What createTermynalValueFromPossiblyHTMLString returns or throws. */
  function TermynalValue(s: string, opts: ValueOptions, html: Html): Result<string> {
    if !StringHasHtmlElements(s) then Ok(TrimEnd(ApplyReplacements(s, opts.replacements)))
    else match html.firstElement(s)
      case None => Err(NoElementFound)
      case Some(e) => Ok(html.outerHtml(DecoratedElement(e, opts)))
  }

  /**
   * The scratch element keeps its tag, has its text replaced, and carries the
   * attributes asked for: the prompt when one is given, otherwise the type.
   */
  lemma DecoratedElementSpec(e: Element, opts: ValueOptions)
    ensures DecoratedElement(e, opts).tag == e.tag
    ensures DecoratedElement(e, opts).text == ApplyReplacements(e.text, opts.replacements)
    ensures opts.prompt.Some? && opts.prompt.value != "" ==>
      GetAttribute(DecoratedElement(e, opts), "data-ty-prompt") == Some(opts.prompt.value)
    ensures opts.inputType && !(opts.prompt.Some? && opts.prompt.value != "") ==>
      GetAttribute(DecoratedElement(e, opts), "data-ty") == Some("input")
  {
  }

  /** Both set attributes survive: the prompt is set after, and apart from, the type. */
  lemma DecoratedKeepsBoth(e: Element, opts: ValueOptions)
    requires opts.inputType && opts.prompt.Some? && opts.prompt.value != ""
    ensures GetAttribute(DecoratedElement(e, opts), "data-ty") == Some("input")
    ensures GetAttribute(DecoratedElement(e, opts), "data-ty-prompt") == Some(opts.prompt.value)
  {
    var e1 := e.(text := ApplyReplacements(e.text, opts.replacements));
    var e2 := SetAttribute(e1, "data-ty", "input");
    assert AsciiLower("data-ty") != AsciiLower("data-ty-prompt");
    LookupAfterSet(e2.attrs, AsciiLower("data-ty-prompt"), opts.prompt.value, AsciiLower("data-ty"));
  }

  /**
   * createTermynalValueFromPossiblyHTMLString: plain text is replaced and
   * end-trimmed; markup has its first element's text replaced, its attributes
   * set, and is serialised again; markup without an element throws.
   */
  method CreateTermynalValueFromPossiblyHtmlString(s: string, opts: ValueOptions, html: Html)
    returns (r: Result<string>)
    ensures r == TermynalValue(s, opts, html)
  {
    if !StringHasHtmlElements(s) {
      return Ok(TrimEnd(ApplyReplacements(s, opts.replacements)));
    }
    var elem := html.firstElement(s);
    if elem.None? {
      return Err(NoElementFound);
    }
    var e := elem.value;
    e := e.(text := ApplyReplacements(e.text, opts.replacements));
    if opts.inputType {
      e := SetAttribute(e, "data-ty", "input");
    }
    if opts.prompt.Some? && opts.prompt.value != "" {
      e := SetAttribute(e, "data-ty-prompt", opts.prompt.value);
    }
    r := Ok(html.outerHtml(e));
  }

  // ---------------------------------------------------------------------------
  // Classifying one line

  /** The speech balloon (U+1F4AC) that starts a comment. */
  const SpeechBalloon: char := '\U{1F4AC}'

  const CommentStart := "// "

  function CommentLine(line: string): LineData {
    [Prop("value", Str([SpeechBalloon, ' '] + TrimEnd(ReplaceFirst(line, CommentStart, "")))),
     Prop("class", Str("termynal-comment")),
     Prop("delay", Number(0))]
  }

  /** The input-line options of a prompt line: remove the first prompt literal. */
  function PromptValueOptions(o: Options): ValueOptions {
    ValueOptions([Replacement(o.promptLiteralStart, "")], true, None)
  }

  /** The index of the prompt delimiter in a custom-prompt line (-1 when missing). */
  function PromptStart(line: string, o: Options): int {
    IndexOf(line, o.promptLiteralStart)
  }

  /** The custom prompt: the text before the delimiter without the first custom marker. */
  function CustomPrompt(line: string, o: Options): string {
    ReplaceFirst(Slice(line, 0, PromptStart(line, o)), o.customPromptLiteralStart, "")
  }

  /** The text after the delimiter of a custom-prompt line. */
  function CustomPromptRest(line: string, o: Options): string {
    SliceFrom(line, PromptStart(line, o) + |o.promptLiteralStart|)
  }

  function CustomValueOptions(line: string, o: Options): ValueOptions {
    ValueOptions([], true, Some(CustomPrompt(line, o)))
  }

  /** An input entry for the value computed by createTermynalValueFromPossiblyHTMLString, or its error. */
  function InputEntry(value: Result<string>, prompt: Option<string>): Result<LineData> {
    if value.Err? then Err(value.message)
    else if prompt.Some? then Ok([Prop("type", Str("input")), Prop("value", Str(value.value)), Prop("prompt", Str(prompt.value))])
    else Ok([Prop("type", Str("input")), Prop("value", Str(value.value))])
  }

  /** The four rules, tried in order; the first that matches decides the entry. */
  function ClassifyLine(line: string, o: Options, html: Html): Result<LineData> {
    if StartsWith(line, CommentStart) then Ok(CommentLine(line))
    else if TextContentStartsWith(line, o.promptLiteralStart, html) then
      InputEntry(TermynalValue(line, PromptValueOptions(o), html), None)
    else if TextContentStartsWith(line, o.customPromptLiteralStart, html) then
      InputEntry(TermynalValue(CustomPromptRest(line, o), CustomValueOptions(line, o), html), Some(CustomPrompt(line, o)))
    else Ok([Prop("value", Str(line))])
  }

  /** Rule 1 wins over the others: a raw line starting with "// " is a comment, whatever its text content. */
  lemma CommentRule(line: string, o: Options, html: Html)
    requires StartsWith(line, CommentStart)
    ensures ClassifyLine(line, o, html) == Ok([
      Prop("value", Str([SpeechBalloon, ' '] + TrimEnd(line[3..]))),
      Prop("class", Str("termynal-comment")),
      Prop("delay", Number(0))])
  {
    ReplaceFirstOfPrefix(line, CommentStart);
  }

  /** Rule 2 on plain text: type input, the prompt literal removed and the end trimmed. */
  lemma PlainPromptRule(line: string, o: Options, html: Html)
    requires !StartsWith(line, CommentStart) && !StringHasHtmlElements(line)
    requires StartsWith(line, o.promptLiteralStart)
    ensures ClassifyLine(line, o, html)
      == Ok([Prop("type", Str("input")), Prop("value", Str(TrimEnd(line[|o.promptLiteralStart|..])))])
  {
    ReplaceFirstOfPrefix(line, o.promptLiteralStart);
    ApplyOneReplacement(line, Replacement(o.promptLiteralStart, ""));
  }

  /**
   * Rule 2 on markup, decided on its text content: the value is the first
   * element alone, its text with the first prompt literal removed and
   * `data-ty="input"` set; markup without an element throws.
   */
  lemma MarkupPromptRule(line: string, o: Options, html: Html)
    requires !StartsWith(line, CommentStart) && StringHasHtmlElements(line)
    requires StartsWith(html.textContent(line), o.promptLiteralStart)
    ensures html.firstElement(line).None? ==> ClassifyLine(line, o, html) == Err(NoElementFound)
    ensures html.firstElement(line).Some? ==>
      var e := html.firstElement(line).value;
      var d := DecoratedElement(e, PromptValueOptions(o));
      ClassifyLine(line, o, html) == Ok([Prop("type", Str("input")), Prop("value", Str(html.outerHtml(d)))])
      && d.tag == e.tag && d.text == ReplaceFirst(e.text, o.promptLiteralStart, "")
      && GetAttribute(d, "data-ty") == Some("input")
  {
    var e := html.firstElement(line).GetOr(Element("", [], ""));
    DecoratedElementSpec(e, PromptValueOptions(o));
    ApplyOneReplacement(e.text, Replacement(o.promptLiteralStart, ""));
  }

  /** A piece of a plain-text line is plain text too. */
  lemma PieceOfPlainText(line: string, k: nat)
    requires k <= |line| && !StringHasHtmlElements(line)
    ensures !StringHasHtmlElements(line[k..]) && !StringHasHtmlElements(line[..k])
  {
    assert line == line[..k] + line[k..] + [];
    assert line == [] + line[..k] + line[k..];
    if StringHasHtmlElements(line[k..]) {
      HtmlInsideIsHtml(line[..k], line[k..], []);
    }
    if StringHasHtmlElements(line[..k]) {
      HtmlInsideIsHtml([], line[..k], line[k..]);
    }
  }

  /** Plain text without replacements comes out end-trimmed and otherwise unchanged. */
  lemma PlainTermynalValue(s: string, opts: ValueOptions, html: Html)
    requires !StringHasHtmlElements(s) && opts.replacements == []
    ensures TermynalValue(s, opts, html) == Ok(TrimEnd(s))
  {
  }

  /**
   * Rule 3 on plain text with a delimiter at d, the first prompt literal in
   * the raw line: the prompt is the text before d without its first custom
   * marker, and the value is the end-trimmed text after the delimiter.
   */
  lemma CustomPromptRule(line: string, o: Options, html: Html)
    requires !StartsWith(line, CommentStart) && !StringHasHtmlElements(line)
    requires !StartsWith(line, o.promptLiteralStart) && StartsWith(line, o.customPromptLiteralStart)
    requires PromptStart(line, o) != -1
    ensures var d := PromptStart(line, o);
      var prompt := ReplaceFirst(line[..d], o.customPromptLiteralStart, "");
      ClassifyLine(line, o, html) == Ok([
        Prop("type", Str("input")),
        Prop("value", Str(TrimEnd(line[d + |o.promptLiteralStart|..]))),
        Prop("prompt", Str(prompt))])
      && !MissingDelimiter(line, o, html)
  {
    CustomPromptParts(line, o);
    CustomRestIsPlain(line, o);
    PlainTermynalValue(CustomPromptRest(line, o), CustomValueOptions(line, o), html);
    assert TextContent(line, html) == line;
    CustomRuleApplies(line, o, html);
  }

  /** The text after the delimiter of a plain-text line is plain text. */
  lemma CustomRestIsPlain(line: string, o: Options)
    requires !StringHasHtmlElements(line) && PromptStart(line, o) != -1
    ensures !StringHasHtmlElements(CustomPromptRest(line, o))
  {
    CustomPromptParts(line, o);
    PieceOfPlainText(line, PromptStart(line, o) + |o.promptLiteralStart|);
  }

  /** Rule 3 in terms of its parts: the input entry of the text after the delimiter, with the prompt. */
  lemma CustomRuleApplies(line: string, o: Options, html: Html)
    requires !StartsWith(line, CommentStart)
    requires !TextContentStartsWith(line, o.promptLiteralStart, html)
    requires TextContentStartsWith(line, o.customPromptLiteralStart, html)
    ensures ClassifyLine(line, o, html)
      == InputEntry(TermynalValue(CustomPromptRest(line, o), CustomValueOptions(line, o), html), Some(CustomPrompt(line, o)))
  {
  }

  /** With a delimiter at d, the prompt and the rest are the plain slices around it. */
  lemma CustomPromptParts(line: string, o: Options)
    requires PromptStart(line, o) != -1
    ensures var d := PromptStart(line, o);
      0 <= d && d + |o.promptLiteralStart| <= |line|
      && CustomPromptRest(line, o) == line[d + |o.promptLiteralStart|..]
      && CustomPrompt(line, o) == ReplaceFirst(line[..d], o.customPromptLiteralStart, "")
  {
    assert OccursAt(line, o.promptLiteralStart, PromptStart(line, o));
  }

  /**
   * Rule 3 without a delimiter: reported, and still classified, with
   * indexOf's -1 fed to slice: the prompt comes from the line without its
   * last character and the value from the line from index |literal| - 1.
   */
  lemma MissingDelimiterRule(line: string, o: Options, html: Html)
    requires !StartsWith(line, CommentStart) && !StringHasHtmlElements(line)
    requires !StartsWith(line, o.promptLiteralStart) && StartsWith(line, o.customPromptLiteralStart)
    requires PromptStart(line, o) == -1
    requires 1 <= |o.promptLiteralStart| <= |line|
    ensures MissingDelimiter(line, o, html)
    ensures ClassifyLine(line, o, html) == Ok([
        Prop("type", Str("input")),
        Prop("value", Str(TrimEnd(line[|o.promptLiteralStart| - 1..]))),
        Prop("prompt", Str(ReplaceFirst(line[..|line| - 1], o.customPromptLiteralStart, "")))])
  {
    var k := |o.promptLiteralStart| - 1;
    var rest := line[k..];
    assert CustomPromptRest(line, o) == rest;
    assert Slice(line, 0, -1) == line[..|line| - 1];
    assert CustomPrompt(line, o) == ReplaceFirst(line[..|line| - 1], o.customPromptLiteralStart, "");
    PieceOfPlainText(line, k);
    PlainTermynalValue(rest, CustomValueOptions(line, o), html);
    assert TextContent(line, html) == line;
  }

  /** Rule 4: a line no rule matches is output, kept verbatim (no trimming). */
  lemma PlainOutputRule(line: string, o: Options, html: Html)
    requires !StartsWith(line, CommentStart)
    requires !TextContentStartsWith(line, o.promptLiteralStart, html)
    requires !TextContentStartsWith(line, o.customPromptLiteralStart, html)
    ensures ClassifyLine(line, o, html) == Ok([Prop("value", Str(line))])
  {
  }

  /** With the default options, "$ echo woo\nwoo" gives an input entry and an output entry. */
  lemma EchoExample(html: Html)
    ensures ClassifyLines(Split("$ echo woo\nwoo", '\n'), DefaultOptions, html)
      == Ok([[Prop("type", Str("input")), Prop("value", Str("echo woo"))], [Prop("value", Str("woo"))]])
  {
    EchoSplit();
    EchoFirstLine(html);
    EchoSecondLine(html);
    ClassifyTwoLines("$ echo woo", "woo", DefaultOptions, html);
  }

  lemma EchoSplit()
    ensures Split("$ echo woo\nwoo", '\n') == ["$ echo woo", "woo"]
  {
    var first, second := "$ echo woo", "woo";
    assert "$ echo woo\nwoo" == first + ['\n'] + second;
    assert '\n' !in first && '\n' !in second;
    SplitAtSeparator(first, '\n', second);
    SplitNoSeparator(second, '\n');
  }

  lemma EchoFirstLine(html: Html)
    ensures ClassifyLine("$ echo woo", DefaultOptions, html) == Ok([Prop("type", Str("input")), Prop("value", Str("echo woo"))])
  {
    var line := "$ echo woo";
    EchoFirstLineFacts();
    PlainPromptRule(line, DefaultOptions, html);
    TrimEndKeeps("echo woo");
  }

  lemma EchoFirstLineFacts()
    ensures var line := "$ echo woo";
      !StringHasHtmlElements(line) && StartsWith(line, "$ ") && !StartsWith(line, CommentStart)
      && line[2..] == "echo woo" && !IsJsWhitespace("echo woo"[7])
  {
    NoAngleNoHtml("$ echo woo");
  }

  lemma EchoSecondLine(html: Html)
    ensures ClassifyLine("woo", DefaultOptions, html) == Ok([Prop("value", Str("woo"))])
  {
    var line := "woo";
    NoAngleNoHtml(line);
    assert !StartsWith(line, "$ ") && !StartsWith(line, "# ") && !StartsWith(line, CommentStart);
    PlainOutputRule(line, DefaultOptions, html);
  }

  /** Two lines that both classify give their two entries, in order. */
  lemma ClassifyTwoLines(a: string, b: string, o: Options, html: Html)
    requires ClassifyLine(a, o, html).Ok? && ClassifyLine(b, o, html).Ok?
    ensures ClassifyLines([a, b], o, html) == Ok([ClassifyLine(a, o, html).value, ClassifyLine(b, o, html).value])
  {
    var ra, rb := ClassifyLine(a, o, html), ClassifyLine(b, o, html);
    assert ClassifyEach([a, b], o, html) == [ra, rb];
    assert [ra, rb][1..] == [rb] && [rb][1..] == [];
    assert Collect([rb]) == Prepend([rb.value], Collect([]));
    assert [rb.value] + [] == [rb.value];
    assert Collect([ra, rb]) == Prepend([ra.value], Collect([rb]));
    assert [ra.value] + [rb.value] == [ra.value, rb.value];
  }

  /** "// a note" is a comment whose value starts with the balloon. */
  lemma CommentExample(o: Options, html: Html)
    ensures ClassifyLine("// a note", o, html) == Ok([
      Prop("value", Str([SpeechBalloon] + " a note")),
      Prop("class", Str("termynal-comment")),
      Prop("delay", Number(0))])
  {
    CommentExampleFacts();
    CommentRule("// a note", o, html);
    TrimEndKeeps("a note");
  }

  lemma CommentExampleFacts()
    ensures StartsWith("// a note", CommentStart) && "// a note"[3..] == "a note"
    ensures !IsJsWhitespace("a note"[5]) && [SpeechBalloon, ' '] + "a note" == [SpeechBalloon] + " a note"
  {
  }

  /**
   * A comment line's span carries its class under the glued name
   * `pfx + pfx + "-class"` (`data-tydata-ty-class` with the default prefix),
   * so the comment styling is lost; the delay attribute is named correctly.
   */
  lemma CommentClassIsGlued(line: string, pfx: string)
    ensures TermynalAttributesAsWritten(CommentLine(line), pfx)
      == pfx + pfx + "-class=\"termynal-comment\" " + pfx + "-delay=\"0\" "
  {
    var v := [SpeechBalloon, ' '] + TrimEnd(ReplaceFirst(line, CommentStart, ""));
    CommentAttributes(v, pfx);
  }

  lemma CommentAttributes(v: string, pfx: string)
    ensures TermynalAttributesAsWritten([Prop("value", Str(v)), Prop("class", Str("termynal-comment")), Prop("delay", Number(0))], pfx)
      == pfx + pfx + "-class=\"termynal-comment\" " + pfx + "-delay=\"0\" "
  {
    var a, b, c := Prop("value", Str(v)), Prop("class", Str("termynal-comment")), Prop("delay", Number(0));
    assert NatToString(0) == "0";
    assert PieceAfterPrefix(b) == "-class=\"termynal-comment\" ";
    assert PieceAfterPrefix(c) == "-delay=\"0\" ";
    ValueFirst(a, b, c, pfx);
  }

  /** The custom-prompt rule applies but the line holds no prompt delimiter: reported, not fatal. */
  predicate MissingDelimiter(line: string, o: Options, html: Html) {
    !StartsWith(line, CommentStart)
    && !TextContentStartsWith(line, o.promptLiteralStart, html)
    && TextContentStartsWith(line, o.customPromptLiteralStart, html)
    && PromptStart(line, o) == -1
  }

  /** The values of a list of results, or the first error: a loop that throws stops there. */
  function Collect<T>(rs: seq<Result<T>>): Result<seq<T>> {
    if rs == [] then Ok([])
    else if rs[0].Err? then Err(rs[0].message)
    else Prepend([rs[0].value], Collect(rs[1..]))
  }

  function Prepend<T>(xs: seq<T>, r: Result<seq<T>>): Result<seq<T>> {
    match r
    case Ok(t) => Ok(xs + t)
    case Err(m) => Err(m)
  }

  /**
   * Collect succeeds exactly when every result does, with one value per
   * result in order; otherwise it is the first error.
   */
  lemma {:induction false} CollectPointwise<T>(rs: seq<Result<T>>)
    ensures Collect(rs).Ok? <==> forall i :: 0 <= i < |rs| ==> rs[i].Ok?
    ensures Collect(rs).Ok? ==> |Collect(rs).value| == |rs| && forall i :: 0 <= i < |rs| ==> Collect(rs).value[i] == rs[i].value
    ensures Collect(rs).Err? ==>
      exists i :: (0 <= i < |rs| && rs[i].Err? && Collect(rs) == Err(rs[i].message)
        && forall j :: 0 <= j < i ==> rs[j].Ok?)
  {
    if rs != [] && rs[0].Ok? {
      CollectPointwise(rs[1..]);
      assert forall i :: 1 <= i < |rs| ==> rs[1..][i - 1] == rs[i];
      if Collect(rs).Err? {
        var i :| 0 <= i < |rs[1..]| && rs[1..][i].Err? && Collect(rs[1..]) == Err(rs[1..][i].message)
          && forall j :: 0 <= j < i ==> rs[1..][j].Ok?;
        assert forall j :: 1 <= j < i + 1 ==> rs[j] == rs[1..][j - 1];
        assert rs[i + 1] == rs[1..][i];
      }
    }
  }

  /** Collecting from position i: the i-th value, then the rest; or the i-th error. */
  lemma CollectFrom<T>(rs: seq<Result<T>>, i: nat)
    requires i < |rs|
    ensures rs[i].Err? ==> Collect(rs[i..]) == Err(rs[i].message)
    ensures rs[i].Ok? ==> Collect(rs[i..]) == Prepend([rs[i].value], Collect(rs[i + 1..]))
  {
    assert rs[i..][0] == rs[i] && rs[i..][1..] == rs[i + 1..];
  }

  lemma PrependTwice<T>(xs: seq<T>, ys: seq<T>, r: Result<seq<T>>)
    ensures Prepend(xs, Prepend(ys, r)) == Prepend(xs + ys, r)
  {
    if r.Ok? {
      assert xs + (ys + r.value) == (xs + ys) + r.value;
    }
  }

  /** One step of a collecting loop that has the values before position i in hand. */
  lemma CollectStep<T>(rs: seq<Result<T>>, i: nat, done: seq<T>)
    requires i < |rs| && Collect(rs) == Prepend(done, Collect(rs[i..]))
    ensures rs[i].Err? ==> Collect(rs) == Err(rs[i].message)
    ensures rs[i].Ok? ==> Collect(rs) == Prepend(done + [rs[i].value], Collect(rs[i + 1..]))
  {
    CollectFrom(rs, i);
    if rs[i].Ok? {
      PrependTwice(done, [rs[i].value], Collect(rs[i + 1..]));
    }
  }

  /** The classification of each line, in order. */
  function ClassifyEach(lines: seq<string>, o: Options, html: Html): seq<Result<LineData>> {
    seq(|lines|, i requires 0 <= i < |lines| => ClassifyLine(lines[i], o, html))
  }

  /** The entries of a list of lines, or the first failing line's error. */
  function ClassifyLines(lines: seq<string>, o: Options, html: Html): Result<seq<LineData>> {
    Collect(ClassifyEach(lines, o, html))
  }

  /** Whether each line's missing delimiter is reported, in order. */
  function MissingEach(lines: seq<string>, o: Options, html: Html): seq<bool> {
    seq(|lines|, i requires 0 <= i < |lines| => MissingDelimiter(lines[i], o, html))
  }

  lemma EachLength(lines: seq<string>, o: Options, html: Html)
    ensures |ClassifyEach(lines, o, html)| == |lines| && |MissingEach(lines, o, html)| == |lines|
  {
  }

  /** Position i of both lists is about line i alone. */
  lemma EachAt(lines: seq<string>, o: Options, html: Html, i: nat)
    requires i < |lines|
    ensures |ClassifyEach(lines, o, html)| == |lines| && |MissingEach(lines, o, html)| == |lines|
    ensures ClassifyEach(lines, o, html)[i] == ClassifyLine(lines[i], o, html)
    ensures MissingEach(lines, o, html)[i] == MissingDelimiter(lines[i], o, html)
  {
  }

  /** The positions of the set flags, in increasing order. */
  function Indices(ms: seq<bool>): seq<nat> {
    if ms == [] then [] else Indices(ms[..|ms| - 1]) + (if ms[|ms| - 1] then [|ms| - 1] else [])
  }

  lemma {:induction false} IndicesExact(ms: seq<bool>, i: int)
    ensures i in Indices(ms) <==> 0 <= i < |ms| && ms[i]
  {
    if ms != [] {
      var init := ms[..|ms| - 1];
      IndicesExact(init, i);
      if 0 <= i < |init| {
        assert init[i] == ms[i];
      }
    }
  }

  lemma IndicesStep(ms: seq<bool>, i: nat)
    requires i < |ms|
    ensures Indices(ms[..i + 1]) == Indices(ms[..i]) + (if ms[i] then [i] else [])
  {
    assert ms[..i + 1][..i] == ms[..i];
  }

  /** The positions among the first n are a prefix of all of them. */
  lemma {:induction false} IndicesPrefix(ms: seq<bool>, n: nat)
    requires n <= |ms|
    ensures Indices(ms[..n]) <= Indices(ms)
    decreases |ms|
  {
    if n < |ms| {
      var init := ms[..|ms| - 1];
      assert init[..n] == ms[..n];
      IndicesPrefix(init, n);
    } else {
      assert ms[..n] == ms;
    }
  }

  /** The indices of the lines whose missing delimiter is reported, in order. */
  function ReportedLines(lines: seq<string>, o: Options, html: Html): seq<nat> {
    Indices(MissingEach(lines, o, html))
  }

  /** A line is reported exactly when the custom-prompt rule applies to it and it has no delimiter. */
  lemma ReportedLinesExact(lines: seq<string>, o: Options, html: Html, i: int)
    ensures i in ReportedLines(lines, o, html) <==> 0 <= i < |lines| && MissingDelimiter(lines[i], o, html)
  {
    IndicesExact(MissingEach(lines, o, html), i);
    EachLength(lines, o, html);
    if 0 <= i < |lines| {
      EachAt(lines, o, html, i);
    }
  }

  /**
   * One entry per line, in order, each the classification of its own line
   * alone; the list fails exactly when some line does, with the first such
   * line's error.
   */
  lemma ClassifyLinesPointwise(lines: seq<string>, o: Options, html: Html)
    ensures ClassifyLines(lines, o, html).Ok? <==> forall i :: 0 <= i < |lines| ==> ClassifyLine(lines[i], o, html).Ok?
    ensures ClassifyLines(lines, o, html).Ok? ==>
      |ClassifyLines(lines, o, html).value| == |lines|
      && forall i :: 0 <= i < |lines| ==> ClassifyLines(lines, o, html).value[i] == ClassifyLine(lines[i], o, html).value
    ensures ClassifyLines(lines, o, html).Err? ==>
      exists i :: 0 <= i < |lines| && ClassifyLine(lines[i], o, html).Err?
        && ClassifyLines(lines, o, html) == Err(ClassifyLine(lines[i], o, html).message)
  {
    var rs := ClassifyEach(lines, o, html);
    EachLength(lines, o, html);
    forall i | 0 <= i < |lines|
      ensures rs[i] == ClassifyLine(lines[i], o, html)
    {
      EachAt(lines, o, html, i);
    }
    CollectPointwise(rs);
  }

  /**
   * The state of the `_createLineData` loop before position i: the values
   * collected so far followed by those still to come make up the whole
   * collection, and the reports so far are those of the first i lines.
   */
  ghost predicate Collecting<T>(rs: seq<Result<T>>, ms: seq<bool>, i: nat, done: seq<T>, reported: seq<nat>) {
    i <= |rs| && |ms| == |rs|
    && Collect(rs) == Prepend(done, Collect(rs[i..]))
    && reported == Indices(ms[..i])
  }

  lemma CollectingStart<T>(rs: seq<Result<T>>, ms: seq<bool>)
    requires |ms| == |rs|
    ensures Collecting(rs, ms, 0, [], [])
  {
    assert rs[0..] == rs && ms[..0] == [];
    assert Collect(rs).Ok? ==> [] + Collect(rs).value == Collect(rs).value;
  }

  /** One pass of the loop: either the first error is found, or the state moves on by one. */
  lemma CollectingStep<T>(rs: seq<Result<T>>, ms: seq<bool>, i: nat, done: seq<T>, reported: seq<nat>,
                          entry: Result<T>, missing: bool)
    requires Collecting(rs, ms, i, done, reported) && i < |rs|
    requires entry == rs[i] && missing == ms[i]
    ensures entry.Err? ==>
      Collect(rs) == Err(entry.message) && reported + (if missing then [i] else []) <= Indices(ms)
    ensures entry.Ok? ==>
      Collecting(rs, ms, i + 1, done + [entry.value], reported + (if missing then [i] else []))
  {
    CollectStep(rs, i, done);
    IndicesStep(ms, i);
    IndicesPrefix(ms, i + 1);
  }

  lemma CollectingDone<T>(rs: seq<Result<T>>, ms: seq<bool>, done: seq<T>, reported: seq<nat>)
    requires Collecting(rs, ms, |rs|, done, reported)
    ensures Collect(rs) == Ok(done) && reported == Indices(ms)
  {
    assert ms[..|rs|] == ms;
    assert Collect(rs[|rs|..]) == Ok([]);
    assert done + [] == done;
  }

  /**
   * The body of the `_createLineData` loop for one line: the entry it pushes
   * (or the error it throws) and whether it reports a missing delimiter.
   */
  method CreateLineEntry(line: string, o: Options, html: Html) returns (r: Result<LineData>, missing: bool)
    ensures r == ClassifyLine(line, o, html)
    ensures missing == MissingDelimiter(line, o, html)
  {
    missing := false;
    if StartsWith(line, CommentStart) {
      r := Ok(CommentLine(line));
    } else if TextContentStartsWith(line, o.promptLiteralStart, html) {
      var value := CreateTermynalValueFromPossiblyHtmlString(line, PromptValueOptions(o), html);
      r := InputEntry(value, None);
    } else if TextContentStartsWith(line, o.customPromptLiteralStart, html) {
      var promptStart := IndexOf(line, o.promptLiteralStart);
      missing := promptStart == -1;
      var prompt := ReplaceFirst(Slice(line, 0, promptStart), o.customPromptLiteralStart, "");
      var value := CreateTermynalValueFromPossiblyHtmlString(
        SliceFrom(line, promptStart + |o.promptLiteralStart|), ValueOptions([], true, Some(prompt)), html);
      assert promptStart == PromptStart(line, o);
      assert ValueOptions([], true, Some(prompt)) == CustomValueOptions(line, o);
      assert SliceFrom(line, promptStart + |o.promptLiteralStart|) == CustomPromptRest(line, o);
      r := InputEntry(value, Some(prompt));
    } else {
      r := Ok([Prop("value", Str(line))]);
    }
  }

  /**
   * The body of the `_createLineData` loop on line i: the entry and flag of
   * that line, and the loop state they lead to.
   */
  method CreateLineEntryAt(lines: seq<string>, i: nat, o: Options, html: Html,
                           ghost rs: seq<Result<LineData>>, ghost ms: seq<bool>,
                           ghost done: seq<LineData>, ghost reported: seq<nat>)
    returns (r: Result<LineData>, missing: bool)
    requires i < |lines| && rs == ClassifyEach(lines, o, html) && ms == MissingEach(lines, o, html)
    requires Collecting(rs, ms, i, done, reported)
    ensures r == ClassifyLine(lines[i], o, html) && missing == MissingDelimiter(lines[i], o, html)
    ensures r.Err? ==> Collect(rs) == Err(r.message) && reported + (if missing then [i] else []) <= Indices(ms)
    ensures r.Ok? ==> Collecting(rs, ms, i + 1, done + [r.value], reported + (if missing then [i] else []))
  {
    r, missing := CreateLineEntry(lines[i], o, html);
    EachAt(lines, o, html, i);
    CollectingStep(rs, ms, i, done, reported, r, missing);
  }

  /**
   * The `_createLineData` loop over the split lines: push one entry per line,
   * stopping at the first line that throws; `reported` lists the lines whose
   * custom prompt has no delimiter, up to that point.
   */
  method CreateLineDataOf(lines: seq<string>, o: Options, html: Html)
    returns (r: Result<seq<LineData>>, reported: seq<nat>)
    ensures r == ClassifyLines(lines, o, html)
    ensures r.Ok? ==> reported == ReportedLines(lines, o, html)
    ensures reported <= ReportedLines(lines, o, html)
  {
    ghost var rs := ClassifyEach(lines, o, html);
    ghost var ms := MissingEach(lines, o, html);
    CollectingStart(rs, ms);
    var lineData: seq<LineData> := [];
    reported := [];
    var i: nat := 0;
    while i < |lines|
      invariant Collecting(rs, ms, i, lineData, reported)
    {
      var entry, missing := CreateLineEntryAt(lines, i, o, html, rs, ms, lineData, reported);
      reported := reported + (if missing then [i] else []);
      if entry.Err? {
        return Err(entry.message), reported;
      }
      lineData := lineData + [entry.value];
      i := i + 1;
    }
    CollectingDone(rs, ms, lineData, reported);
    r := Ok(lineData);
  }

  /** _createLineData: the container's inner markup, split on "\n", line by line. */
  method CreateLineData(innerHtml: string, o: Options, html: Html)
    returns (r: Result<seq<LineData>>, reported: seq<nat>)
    ensures r == ClassifyLines(Split(innerHtml, '\n'), o, html)
    ensures r.Ok? ==> reported == ReportedLines(Split(innerHtml, '\n'), o, html)
    ensures reported <= ReportedLines(Split(innerHtml, '\n'), o, html)
  {
    var lines := Split(innerHtml, '\n');
    r, reported := CreateLineDataOf(lines, o, html);
  }

  // ---------------------------------------------------------------------------
  // The TerminHTML object

  /** A TerminHTML: its container, its merged options and the Termynal it drives. */
  datatype Widget = Widget(host: HostElement, options: Options, termynal: TermynalEngine.Termynal)

  /**
   * `new TerminHTML(container, options)`: the container must resolve, the
   * options are merged, the container's lines are classified (a line that
   * throws stops construction), and a Termynal is built on the same
   * container with the caller's options, `noInit = !initNow` and the lines.
   */
  method NewTerminHtml(ref: ContainerRef, querySelector: string -> Option<HostElement>, u: UserOptions,
    html: Html, observed: nat -> TermynalPlayback.Viewport)
    returns (r: Result<Widget>, reported: seq<nat>)
    ensures GetElementFromSelectorOrElement(ref, querySelector).Err? ==> r == Err(ContainerNotFound)
    ensures GetElementFromSelectorOrElement(ref, querySelector).Ok? ==>
      var host := GetElementFromSelectorOrElement(ref, querySelector).value;
      var classified := ClassifyLines(Split(host.innerHtml, '\n'), MergeOptions(u), html);
      (classified.Err? ==> r == Err(classified.message))
      && (r.Ok? ==>
        classified.Ok? && r.value.host == host && r.value.options == MergeOptions(u)
        && reported == ReportedLines(Split(host.innerHtml, '\n'), MergeOptions(u), html)
        && r.value.termynal.config == ResolveConfig(ToTermynalOptions(u, classified.value), host.attrs))
    ensures GetElementFromSelectorOrElement(ref, querySelector).Ok? ==>
      var host := GetElementFromSelectorOrElement(ref, querySelector).value;
      var classified := ClassifyLines(Split(host.innerHtml, '\n'), MergeOptions(u), html);
      (r.Ok? <==> classified.Ok? && TermynalEngine.AllRender(classified.value, "ty", html))
      && (classified.Ok? && r.Err? ==> r == Err(TermynalEngine.NoLineElement))
    ensures r.Ok? ==>
      var host := GetElementFromSelectorOrElement(ref, querySelector).value;
      var classified := ClassifyLines(Split(host.innerHtml, '\n'), MergeOptions(u), html);
      var elements := TermynalEngine.Rendered(classified.value, "ty", html);
      var t := r.value.termynal;
      (u.initNow != Some(true) ==> t.lines == elements && t.container == [] && t.clock == [])
      && (u.initNow == Some(true) ==>
        t.linesVisible && t.lines == TermynalEngine.PlayedUpTo(elements, |elements|, t.config)
        && t.clock == [TermynalPlayback.Wait(Num(TermynalConfig.DefaultStartDelay), 0)]
          + TermynalEngine.WaitsUpTo(elements, |elements|, t.config,
              TermynalEngine.Pace(TermynalConfig.DefaultTypeDelay, TermynalConfig.DefaultLineDelay, 0))
        && t.container == [TermynalEngine.SpeedControlNode(2)] + TermynalEngine.KeptLines(elements, |elements|, t.config)
          + [TermynalEngine.RestartNode(3)])
  {
    reported := [];
    var host := GetElementFromSelectorOrElement(ref, querySelector);
    if host.Err? {
      return Err(host.message), reported;
    }
    var options := MergeOptions(u);
    var lineData;
    lineData, reported := CreateLineData(host.value.innerHtml, options, html);
    if lineData.Err? {
      return Err(lineData.message), reported;
    }
    var termynalOptions := ToTermynalOptions(u, lineData.value);
    var t := TermynalEngine.NewTermynal(ref, querySelector, termynalOptions, html, observed);
    if t.Err? {
      return Err(t.message), reported;
    }
    r := Ok(Widget(host.value, options, t.value));
  }
}
