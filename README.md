# terminhtml-js, modelled in Dafny

TerminHTML turns the markup inside a container element into an animated
terminal. The repository's core has four pieces, and this project models each
of them with proofs:

- **The line classifier** (`src/terminhtml.ts`, module `TerminHtml`). It
  splits the container's inner markup on `"\n"` and makes one `LineData` per
  line. The rules are tried in order: a comment (the raw line starts with
  `"// "`), a prompt (the visible text starts with `"$ "`), a custom prompt
  (the visible text starts with `"# "`), and otherwise plain output.
  `createTermynalValueFromPossiblyHTMLString` and `applyReplacements` are
  modelled with it, and so are the options merge and the constructor.
- **Rendering one `LineData`** (`src/lines/base.ts`, `src/termynal.ts:399-469`,
  modules `LinesBase` and `TermynalConfig`). A line is either wrapped in a
  `<span>` carrying generated `data-ty…` attributes, or, when its value is
  already markup with relevant `data-` attributes, hoisted unchanged. This
  rests on the exact `stringHasHTMLElements` regular expression
  (`src/dom-utils.ts`, module `DomUtils`).
- **The Termynal playback engine** (`src/termynal.ts`, modules
  `TermynalConfig`, `TermynalPlayback` and `TermynalEngine`). The widget is a
  class with the fields the source updates in place: the line elements, the
  container's children, the three delays, the auto-scroll flag, the speed
  multiplier and the speed control. Its methods are the constructor,
  `loadLines`, `init`, `start`, `type`, `progress`, `_wait`, the auto-scroll
  helpers, the speed-control and restart handlers, and `addFinish`/`addRestart`.
  Each is proved against pure functions of the old state.
- **Two pieces of UI logic.** One is the copy-all text `linesToCopyText`
  (`src/top-bar.ts`, module `TopBar`). The other is the control bar whose
  container swaps its single child between the speed control and the restart
  button (`src/bottom-bar/bar.ts`, module `BottomBar`).

The browser is replaced by values:

- An element is its tag, its ordered attribute list and its text (module `Dom`).
- The HTML parser and serialiser are an oracle record `Dom.Html` of functions
  passed as a parameter: text content, first element, outer HTML, and the
  regex-driven `camelCase` helper.
- A container is the sequence of its children.
- Each `_wait` appends the nominal delay and the multiplier's exponent to a
  virtual clock.
- Every text a typed or progress line shows is appended to a ghost list of
  frames.
- The scroll geometry the user leaves before line `i` is a parameter
  `observed(i)`.

JavaScript strings are `seq<char>`, and the built-ins the code calls
(`startsWith`, `indexOf`, `replace` with a string pattern, `trimEnd`, `slice`,
`split`, `join`, `repeat`, `parseFloat`, number-to-string) are defined in
module `JsString`. The speed multiplier only ever doubles or halves from 1, so
it is kept as an integer exponent: the multiplier is 2^`speedExp`.

Where the code does something other than what its comments or docs suggest,
the model follows the code:

- The comment test looks at the raw line, while the two prompt tests look at
  the visible text.
- The custom-prompt delimiter is the first `"$ "` anywhere in the raw line.
  When it is missing, `indexOf`'s -1 goes into `slice`.
- `_createLineData` has no carriage-return rule.
- Termynal does not clone its line elements for a run: it changes them in
  place, and a restart replays the changed elements (`ReplayIsStable`).
- `type()` scrolls once, after appending the line, not after each character.
- The first run uses the field initialisers 600/90/1500 ms for the start, type
  and line delays. Only the end of a completed `start()` sets them to the
  configured values, and the speed multiplier is never reset.

## Model

| member | source | states |
|---|---|---|
| JsString.IndexOfFirst | src/terminhtml.ts:103 | `indexOf` is -1 exactly when the literal does not occur; otherwise no occurrence starts before the index it returns |
| JsString.ReplaceFirstSpec | src/terminhtml.ts:197-201 | `replace` with a string pattern leaves a string without the pattern unchanged, and otherwise replaces only the first occurrence, keeping the text before and after it |
| JsString.ReplaceFirstOfPrefix | src/terminhtml.ts:85 | removing a literal the string starts with removes exactly that prefix |
| JsString.TrimEnd | src/terminhtml.ts:171 | `trimEnd` keeps a prefix of the string that is empty or does not end in JavaScript whitespace |
| JsString.TrimEndDropsWhitespace | src/terminhtml.ts:171 | every character `trimEnd` drops is whitespace |
| JsString.Slice | src/terminhtml.ts:107-111 | `slice(start, end)` is the plain sub-sequence for in-range indices, and a negative end counts from the end of the string |
| JsString.SliceFrom | src/terminhtml.ts:111 | `slice(start)` with a negative start keeps that many characters from the end |
| JsString.Split | src/terminhtml.ts:79 | `split("\n")` gives at least one part, no part holds a newline, and joining the parts with newlines gives the string back |
| JsString.SplitJoin | src/top-bar.ts:28 | splitting a newline-join of newline-free parts gives the parts back |
| JsString.JoinLength | src/top-bar.ts:28 | a join of k >= 1 parts is the parts' total length plus k - 1 separators |
| JsString.Repeat | src/termynal.ts:367 | `repeat(n)` is n times as long as the string |
| JsString.RepeatChars | src/termynal.ts:367 | a repetition holds only characters of the repeated string |
| JsString.NatToStringRoundTrip | src/termynal.ts:307 | reading back the decimal numeral of a natural number gives the number |
| JsString.ParseFloat | src/termynal.ts:121 | `parseFloat` gives a number exactly when the string, after leading whitespace, starts with a digit |
| JsString.ParseFloatOfNumeral | src/termynal.ts:121 | `parseFloat` of a printed natural number is that number |
| Dom.LookupSpec | src/termynal.ts:245 | `getAttribute` finds nothing exactly when no attribute has the name, and what it finds is a value of an attribute of that name |
| Dom.SetAttribute | src/termynal.ts:252 | after `setAttribute` the attribute reads as the value set, and the tag and text are unchanged |
| Dom.LookupAfterSet | src/termynal.ts:252 | setting one attribute leaves every other attribute name reading as before |
| Dom.RemoveAfterSet | src/termynal.ts:252-269 | setting the cursor attribute and then removing it is the same as only removing it |
| Dom.RemoveAttributeGone | src/termynal.ts:269 | after `removeAttribute` the attribute reads as missing, and removing it again changes nothing |
| Dom.OtherAttributeKept | src/termynal.ts:245-269 | setting or removing the cursor attribute does not change the settings the engine reads from other attributes |
| Dom.CamelizeKeepsLowerPrefix | src/lines/base.ts:73-79 | for a lower-case prefix, a `dataset` key starts with it exactly when the attribute name after `data-` does |
| DomUtils.HtmlTestMatchesPattern | src/dom-utils.ts:14-16 | the scan accepts exactly the strings in the language of `/<\/?[a-z][\s\S]*>/i`: a `<`, an optional `/`, a letter, and a `>` somewhere after it |
| DomUtils.FirstTagStart | src/dom-utils.ts:15 | the first position where a tag opens, or -1 when none opens |
| DomUtils.NoAngleNoHtml | src/dom-utils.ts:15 | a string without `<` is never HTML |
| DomUtils.PlainTextExamples | src/dom-utils.ts:15 | `"$ echo woo"` and `"a < b > c"` are not HTML |
| DomUtils.LoneClosingTagIsHtml | src/dom-utils.ts:15 | a lone `"</span>"` counts as HTML |
| DomUtils.HtmlInsideIsHtml | src/dom-utils.ts:15 | the test is unanchored: a string containing an HTML string is HTML |
| DomUtils.GetElementFromSelectorOrElement | src/dom-utils.ts:1-12 | a given element is returned unchanged; a selector returns what the lookup finds, or fails with "Container element not found" |
| LinesBase.Attributes | src/lines/base.ts:32-54 | the for-in loop collects the pairs of `AttrPairs` in property order; the result is `data-ty=<type or "">` followed by each pair as `name="value"`, joined by single spaces |
| LinesBase.AttrPairsExact | src/lines/base.ts:35-45 | a pair is collected exactly when some property that is not `value` or `type` and is not undefined asks for it, named `pfx-key` |
| LinesBase.AttrPairsAppend | src/lines/base.ts:35-45 | the pairs keep property order: the pairs of a concatenation are the pairs of each part, in turn |
| LinesBase.AttributesStartWithType | src/lines/base.ts:47-53 | the attribute string always opens with the hard-coded `data-ty=` and the line's type, whatever the prefix |
| LinesBase.StringIsHtmlElementWithRelevantData | src/lines/base.ts:56-80 | the search returns true exactly when the value is HTML whose first element has a `dataset` key starting with the camel-cased prefix; it warns exactly when the HTML has no element, and then returns false |
| LinesBase.DatasetKeysPrefix | src/lines/base.ts:74-79 | for a lower-case prefix, some `dataset` key starts with it exactly when some `data-` attribute's name starts with `data-` and the prefix |
| LinesBase.RelevantIffPrefixedDataAttribute | src/lines/base.ts:56-80 | with a prefix `camelCase` leaves alone, the value is relevant exactly when its first element has a `data-<prefix>…` attribute |
| LinesBase.LineDataToBasicElement | src/lines/base.ts:12-24 | the element is the first element of the hoisted value or of the attributed span, a missing value reading as `""`; the warning is raised exactly for HTML with no element |
| LinesBase.PlainValueIsWrapped | src/lines/base.ts:18-21 | a value with no HTML (or none at all) is wrapped in a span whose markup opens with `<span data-ty=<type>` |
| LinesBase.RelevantMarkupIsHoisted | src/lines/base.ts:19-20 | HTML with relevant data is used unchanged, so its first element keeps all its attributes |
| LinesBase.IrrelevantMarkupIsWrapped | src/lines/base.ts:19-21 | HTML without relevant data, a lone closing tag included, becomes the span's inner markup verbatim |
| LinesBase.DataTypeAttributeIsRelevant | src/lines/base.ts:73-79 | with the default prefix `ty`, an attribute such as `data-type` already counts as relevant |
| TerminHtml.MergeOptions | src/terminhtml.ts:45-49 | every TerminHTML option the caller gives wins over its default, and a missing one takes the default |
| TerminHtml.MergeOfNothingIsDefault | src/terminhtml.ts:45-49 | with no options the merged options are `"$ "`, `"# "` and `initNow = false` |
| TerminHtml.ToTermynalOptions | src/terminhtml.ts:62-70 | Termynal gets the caller's delays and cursor, the classified lines, and `noInit` true unless the caller's own `initNow` is true |
| TerminHtml.TextContent | src/terminhtml.ts:138-150 | the visible text is the string itself unless it holds HTML, and the parser's text content otherwise |
| TerminHtml.ApplyReplacementsAppend | src/terminhtml.ts:193-202 | applying two lists of replacements one after the other is applying their concatenation |
| TerminHtml.ApplyOneReplacement | src/terminhtml.ts:197-201 | a single replacement is `replace` of its first occurrence |
| TerminHtml.DecoratedElementSpec | src/terminhtml.ts:183-189 | the scratch element keeps its tag, gets its text replaced, and carries `data-ty="input"` or `data-ty-prompt` as asked |
| TerminHtml.DecoratedKeepsBoth | src/terminhtml.ts:184-189 | with both a type and a prompt, both attributes are present afterwards |
| TerminHtml.CreateTermynalValueFromPossiblyHtmlString | src/terminhtml.ts:163-191 | for plain text, the value is the text with the replacements applied and the end trimmed; for HTML, the outer HTML of the decorated first element; HTML without an element fails with "No element found in string" |
| TerminHtml.CommentRule | src/terminhtml.ts:83-88 | a raw line starting with `"// "` wins over every other rule: the balloon and a space, then the line without `"// "` end-trimmed, class `termynal-comment`, delay 0, no type |
| TerminHtml.PlainPromptRule | src/terminhtml.ts:89-99 | a plain-text line starting with the prompt literal becomes type input, its value the rest of the line end-trimmed |
| TerminHtml.MarkupPromptRule | src/terminhtml.ts:89-99 | an HTML line whose visible text starts with the prompt literal becomes its first element alone, text with the first literal removed and `data-ty="input"` set; without an element it fails |
| TerminHtml.PlainTermynalValue | src/terminhtml.ts:168-171 | plain text without replacements comes out end-trimmed and otherwise unchanged |
| TerminHtml.CustomPromptRule | src/terminhtml.ts:100-121 | with the delimiter at the first prompt literal in the raw line, the entry is type input, the text after the delimiter end-trimmed, and a prompt that is the text before it without its first custom marker |
| TerminHtml.CustomPromptParts | src/terminhtml.ts:103-111 | with a delimiter, the prompt and the value come from the plain slices around it |
| TerminHtml.MissingDelimiterRule | src/terminhtml.ts:103-121 | without a delimiter the line is reported and still pushed, with `slice(0, -1)` for the prompt and `slice(promptLiteralStart.length - 1)` for the value |
| TerminHtml.PlainOutputRule | src/terminhtml.ts:122-125 | a line no rule matches is pushed as `{value: line}`, verbatim and untrimmed |
| TerminHtml.EchoExample | src/terminhtml.ts:79-127 | `"$ echo woo\nwoo"` gives `[{type: "input", value: "echo woo"}, {value: "woo"}]` |
| TerminHtml.CommentClassIsGlued | src/terminhtml.ts:84-88 | a comment entry's span, as `_attributes` (src/termynal.ts:420-435) writes it, names its class attribute `pfx` + `pfx` + `-class`, so the comment class is lost; its delay attribute is named correctly |
| TerminHtml.CommentExample | src/terminhtml.ts:83-88 | `"// a note"` gives the balloon and `" a note"`, class `termynal-comment` and delay 0 |
| TerminHtml.CollectPointwise | src/terminhtml.ts:81-127 | a loop that pushes each result and stops at the first throw gives one value per result in order, or exactly the first error |
| TerminHtml.ClassifyLinesPointwise | src/terminhtml.ts:79-127 | one entry per line, in source order, each the classification of its own line alone; it fails exactly when some line does, with that line's error |
| TerminHtml.ReportedLinesExact | src/terminhtml.ts:104-106 | a line is reported exactly when the custom-prompt rule applies to it and it holds no delimiter |
| TerminHtml.CreateLineEntry | src/terminhtml.ts:82-126 | the loop body pushes the classification of its line, and reports exactly the lines without a delimiter |
| TerminHtml.CreateLineDataOf | src/terminhtml.ts:80-128 | the loop over the lines gives the classification of all lines; on success it has reported exactly the lines without a delimiter, and on failure a prefix of them |
| TerminHtml.CreateLineData | src/terminhtml.ts:78-129 | `_createLineData` classifies the `"\n"`-separated lines of the inner markup |
| TerminHtml.NewTerminHtml | src/terminhtml.ts:56-72 | a missing container or a line that throws stops construction with that error. Construction succeeds exactly when the container resolves, every line classifies and every entry's markup gives an element. Then the merged options are kept and the configuration comes from the caller's options and the container. The Termynal holds exactly the rendered entries and has not started unless `initNow` is true. When it is true, it has played every entry, its clock is the 600 ms start delay followed by each entry's waits at the initial 90/1500 ms delays, and it has left the speed control, the kept lines and the restart link |
| TermynalConfig.NumberOr | src/termynal.ts:119-136 | a truthy option wins, then a truthy parse of the container attribute, then the default; 0 and NaN fall through, and a positive default gives a positive setting |
| TermynalConfig.TextOr | src/termynal.ts:137-150 | a non-empty option wins, then a non-empty attribute, then the default |
| TermynalConfig.ResolveConfig | src/termynal.ts:116-153 | the prefix is `data-` plus the option or `ty`; every delay, length and percent is positive; the progress character and cursor are non-empty; auto-scroll defaults to true |
| TermynalConfig.ZeroAndNaNFallThrough | src/termynal.ts:119-130 | an option of 0 and an attribute without digits fall through to 600/90/1500 |
| TermynalConfig.AttributeThenOption | src/termynal.ts:127-130 | a numeric container attribute is used when the option is missing, and a non-zero option wins over it |
| TermynalConfig.AsWrittenHasStrayPrefixes | src/termynal.ts:420-435 | as written, `_attributes` emits one stray prefix for each `value` property |
| TermynalConfig.AsWrittenCorrectIff | src/termynal.ts:420-435 | as written, the string is the intended one exactly when the line has no `value` property |
| TermynalConfig.CustomPromptIsGlued | src/termynal.ts:420-435 | as written, a custom-prompt entry puts its prompt under an attribute named `pfx` + `pfx` + `-prompt` |
| TermynalConfig.ValueBetween | src/termynal.ts:422-431 | a `value` property between two others leaves one bare prefix between their attributes as written, and none as intended |
| TermynalConfig.AsWrittenAgreesWithoutValue | src/termynal.ts:420-435 | without a `value` property, the code as written gives the intended string |
| TermynalConfig.AttributesAsWritten | src/termynal.ts:420-435 | the loop as the code runs it, with the prefix appended for every property, `value` included, gives the as-written string |
| TermynalConfig.ValueFirst | src/termynal.ts:420-435 | as written, a `value` property that comes first glues a bare prefix to the next property's attribute name |
| TermynalConfig.TermynalAttributes | src/termynal.ts:420-435 | `_attributes` (with the prefix appended only for the properties it describes) gives the intended string |
| TermynalConfig.TermynalAttributesConcat | src/termynal.ts:425-431 | the intended string is its attributes written one after another, each `name="value" ` |
| TermynalConfig.TermynalAttrsExact | src/termynal.ts:422-431 | an attribute is in the intended string exactly when a property other than `value` asks for it: the bare prefix for `type`, `pfx-key` otherwise |
| TermynalConfig.LineDataToElements | src/termynal.ts:399-412 | one first element per line, in order. Each comes from the hoisted value, or from the span carrying the attribute string `_attributes` produces as written |
| TermynalPlayback.ToggleAutoScrollSpec | src/termynal.ts:213-235 | more than 5 pixels above the bottom turns auto-scroll off; within 5 pixels the configured behaviour comes back; it is never on when configured off |
| TermynalPlayback.ScrolledToBottom | src/termynal.ts:207-211 | the scroll position moves to the scroll height only while auto-scroll is on, and nothing else changes |
| TermynalPlayback.ScrolledIsAtBottom | src/termynal.ts:207-235 | after a scroll to the bottom, the container counts as at the bottom again |
| TermynalPlayback.MultiplierDoubles | src/termynal.ts:315-320 | one more step of the exponent doubles the multiplier |
| TermynalPlayback.SpeedUpHalvesWaits | src/termynal.ts:387-390 | a wait made one speed-up later lasts half as long |
| TermynalPlayback.LabelExamples | src/termynal.ts:307-319 | the label starts as `"1x"` and reads `"16x"` after four speed-ups |
| TermynalPlayback.DelayFromSpec | src/termynal.ts:246 | a line's own numeric delay wins, even `"0"`; a missing or empty one falls back to the setting; one without digits waits 0 ms |
| TermynalPlayback.PercentSpec | src/termynal.ts:375 | the percent is the integer nearest to 100·i/len, halves rounded up; it is 100 at the last step and never more before it |
| TermynalPlayback.PercentMonotone | src/termynal.ts:375 | the percent never decreases as the bar grows |
| TermynalPlayback.StopFromSpec | src/termynal.ts:373-380 | the loop from step i stops at the end or at the first step whose percent exceeds the limit |
| TermynalPlayback.ProgressStepsSpec | src/termynal.ts:373-380 | progress shows at least one step of a non-empty bar and stops after len steps, or at the first step past the limit, whichever comes first |
| TermynalPlayback.FullProgress | src/termynal.ts:373-380 | with a limit of 100 or more every step is shown and the last shows 100% |
| TermynalPlayback.ProgressFrameSpec | src/termynal.ts:376 | step i shows the first i bar characters, a space, the percent's digits and `%` |
| TermynalPlayback.DefaultProgressBar | src/termynal.ts:131-146 | with the defaults the bar is 40 full blocks and its last step reads the bar then `" 100%"` |
| TermynalEngine.RemoveChild | src/termynal.ts:266 | `removeChild` keeps exactly the other children |
| TermynalEngine.AppendChildSpec | src/termynal.ts:259 | `appendChild` puts a new node last after the others, moves an existing child instead of duplicating it, and adds no other node |
| TermynalEngine.AppendLinesFresh | src/termynal.ts:167-170 | lines that are not children yet are appended after the other children, in order |
| TermynalEngine.LoadedInOrder | src/termynal.ts:160-175 | `loadLines` leaves the speed control, every line in order, then the restart link after the existing children |
| TermynalEngine.PlayRunSpec | src/termynal.ts:244-270 | after n turns of the loop, the first n lines are played and the rest untouched; each line's container change, waits and frames are added in order; auto-scroll follows the last line's geometry |
| TermynalEngine.KeptLinesSpec | src/termynal.ts:265-267 | a line stays in the container exactly when it was played and has no non-empty carriage-return attribute; kept lines are in increasing order |
| TermynalEngine.ContainerFromControl | src/termynal.ts:244-270 | played from the speed control alone, the container holds the speed control and then the kept lines in order, the last line included in the removal |
| TermynalEngine.CursorRemovalKeepsSettings | src/termynal.ts:269 | removing the cursor attribute keeps the line's type, delays, carriage return and progress settings |
| TermynalEngine.ReplayIsStable | src/termynal.ts:282-286 | a played line played again stays as it is, waits the same and shows the same, so a restart replays the same animation |
| TermynalEngine.TypingFramesSpec | src/termynal.ts:343-355 | typing shows the empty line, then one more character after each wait, and ends with the full original text |
| TermynalEngine.InputEffects | src/termynal.ts:251-254 | the input branch's cursor, typing and wait add up to the played line, its waits and its frames |
| TermynalEngine.ProgressEffects | src/termynal.ts:255-257 | the progress branch adds up to the played line, one wait per step and the line delay, and its frames |
| TermynalEngine.OutputEffects | src/termynal.ts:258-262 | any other line waits the line delay once and shows no frames |
| TermynalEngine.StepsAt | src/termynal.ts:373-380 | a step where the loop can stop is the number of steps progress shows |
| TermynalEngine.InitContainer | src/termynal.ts:240-271 | a run started on an empty container leaves the speed control, the kept lines in order and the restart link |
| TermynalEngine.AllPresent | src/termynal.ts:410 | the line elements are all present exactly when every markup gave an element, each the element its markup gave |
| TermynalEngine.Termynal.constructor | src/termynal.ts:112-158 | the settings are resolved from the options and the container; the delays start at 600/90/1500, the multiplier at 1 and auto-scroll at its configured value; `loadLines` runs and `innerHTML = ""` empties the container again |
| TermynalEngine.Termynal.LoadLines | src/termynal.ts:160-175 | a hidden speed control, every line, then a restart link are appended in that order |
| TermynalEngine.Termynal.WaitFor | src/termynal.ts:387-391 | each `_wait` records its nominal delay with the multiplier in force |
| TermynalEngine.Termynal.ToggleAutoScroll | src/termynal.ts:213-223 | auto-scroll becomes what the 5-pixel test on the current geometry gives |
| TermynalEngine.Termynal.ScrollToBottom | src/termynal.ts:207-211 | the container scrolls to the bottom only while auto-scroll is on |
| TermynalEngine.Termynal.SpeedUp | src/termynal.ts:315-320 | the multiplier doubles and the label shows the new multiplier |
| TermynalEngine.Termynal.SlowDown | src/termynal.ts:303-308 | the multiplier halves and the label shows the new multiplier |
| TermynalEngine.Termynal.AddFinish | src/termynal.ts:334-337 | a new speed control, labelled with the current multiplier, is appended |
| TermynalEngine.Termynal.AddRestart | src/termynal.ts:329-332 | a new restart link is appended |
| TermynalEngine.Termynal.Type | src/termynal.ts:343-355 | the line is emptied and appended, the container scrolls, and each character waits the line's or the current type delay; the line ends with its text as it was |
| TermynalEngine.Termynal.Progress | src/termynal.ts:361-381 | the line is emptied and appended; each step waits the type delay and shows the bar so far and its percent; the line is left showing its last step |
| TermynalEngine.Termynal.FillBar | src/termynal.ts:370-380 | the loop over steps stops after the step that passes the limit, having waited once and shown one frame per step |
| TermynalEngine.Termynal.PlayLine | src/termynal.ts:245-269 | one turn of `start()`'s loop is one step of the run: the line's branch, its wait, its carriage-return removal and the cursor removal |
| TermynalEngine.Termynal.PlayInput | src/termynal.ts:249-269 | the input branch follows the user's scrolling, sets the cursor, types, waits the line delay, and tidies up |
| TermynalEngine.Termynal.PlayProgress | src/termynal.ts:249-269 | the progress branch follows the user's scrolling, fills the bar, waits the line delay, and tidies up |
| TermynalEngine.Termynal.PlayOutput | src/termynal.ts:249-269 | any other line follows the user's scrolling, is appended whole, scrolls, waits, and is tidied up |
| TermynalEngine.Termynal.PlayAll | src/termynal.ts:244-270 | the loop plays every line in order |
| TermynalEngine.Termynal.PlayNext | src/termynal.ts:244-270 | one more pass of the loop advances the run by one line |
| TermynalEngine.Termynal.Open | src/termynal.ts:241-242 | `start()` opens with a new speed control and the start delay |
| TermynalEngine.Termynal.Close | src/termynal.ts:271-277 | `start()` closes with a restart link, hides the speed control and puts the configured delays back |
| TermynalEngine.Termynal.Start | src/termynal.ts:240-278 | `start()` is the opening, every line played in order, then the close; the multiplier is not reset |
| TermynalEngine.Termynal.Init | src/termynal.ts:182-205 | the container ends as the speed control, the lines without a carriage return in order, and the restart link. The clock gets the start delay and then each line's waits, and the frames get each line's frames. The configured delays are restored and the multiplier is kept. The new speed control is hidden at the end. The whole playback state (lines, container, clock, frames, auto-scroll, view) is that of a `start()` on an emptied container. The predicate `Initialised` gathers these clauses |
| TermynalEngine.Termynal.Restart | src/termynal.ts:282-286 | the restart handler empties the container and runs `init` again on the played lines. It ends in the same state `init` promises (the same `Initialised` outcome): the lines replayed with their waits and frames, the speed multiplier not reset, a new hidden speed control, two new control ids, and the configured delays |
| TermynalEngine.NewTermynal | src/termynal.ts:112-158 | a missing container fails with "Container element not found". With a container it succeeds exactly when every line's markup gives an element, and fails on the null line otherwise. On success the lines are the rendered elements in order, left as they are under `noInit`. Otherwise one run has played them: the clock is the start delay of 600 ms followed by each line's waits at the initial 90/1500 ms delays, and the speed control, the kept lines and the restart link are left in the container |
| TopBar.InputTextsAppend | src/top-bar.ts:25-27 | the filter keeps order: the texts of a concatenation are the texts of each part, in turn |
| TopBar.NoInputTexts | src/top-bar.ts:25-27 | there are no texts exactly when no line's attribute is `"input"` |
| TopBar.OtherLineIgnored | src/top-bar.ts:26 | a line whose attribute is missing, `""`, `"progress"` or anything but `"input"` adds nothing to the copy text |
| TopBar.NoInputLines | src/top-bar.ts:28 | without input lines the copy text is `""` |
| TopBar.OneInputLine | src/top-bar.ts:24-29 | with exactly one input line the copy text is that line's text, unchanged |
| TopBar.CopyTextSeparators | src/top-bar.ts:28 | with k >= 1 input lines exactly k - 1 newlines are inserted, and for newline-free texts splitting the copy text on newlines gives the texts back in order |
| BottomBar.ReplaceChild | src/bottom-bar/bar.ts:40 | `replaceChild` fails exactly when the old child is not a child; otherwise the new child is present and the old one is gone |
| BottomBar.ReplaceOnlyChild | src/bottom-bar/bar.ts:40-47 | replacing a container's only child leaves exactly the new child |
| BottomBar.Bar.constructor | src/bottom-bar/bar.ts:23-32 | the bar holds the branding then the control container, and the container holds the speed control and not the restart button |
| BottomBar.Bar.SwitchToRestart | src/bottom-bar/bar.ts:36-41 | afterwards the restart button is shown and the speed control is absent, from either state, so a second call changes nothing |
| BottomBar.Bar.SwitchToSpeedControl | src/bottom-bar/bar.ts:43-48 | afterwards the speed control is shown and the restart button is absent, from either state, the initial one included |
| BottomBar.ExactlyOneControl | src/bottom-bar/bar.ts:40-47 | exactly one of the two controls is in the container, and the branding stays the bar's first child |
| BottomBar.SwitchSequences | src/bottom-bar/bar.ts:17-51 | switching to the speed control first keeps it; switching to restart twice shows restart; switching back restores the speed control; the branding never moves |

## Findings

| source | as written | input that shows it | evidently intended | confidence | as-written member | corrected member |
|---|---|---|---|---|---|---|
| src/termynal.ts:422-431 | `_attributes` appends the prefix for every property before it tests for `value`, so a `value` property leaves a bare prefix glued to the next attribute's name | the custom-prompt entry `{type: "input", value: "ls", prompt: "% "}` with prefix `data-ty` gives `data-ty="input" data-tydata-ty-prompt="% " `, so the prompt is lost | `value` contributes nothing: `data-ty="input" data-ty-prompt="% " ` | high, not executed | TermynalConfig.CustomPromptIsGlued | TermynalConfig.TermynalAttributes |

The as-written function is `TermynalConfig.TermynalAttributesAsWritten`, and
`TermynalConfig.AttributesAsWritten` is the loop that computes it.
`AsWrittenCorrectIff` proves it goes wrong exactly for lines with a `value`
property, and every line the classifier makes has one.
`TerminHtml.CommentClassIsGlued` shows how it breaks comment lines.
`LineDataToElements`, and so the engine and both constructors, render with
this as-written string, so the model plays what the program plays. The
corrected `TermynalAttributesOf` is computed by `TermynalAttributes`, and
`TermynalAttrsExact` states its attribute set. It is the string the
rendering would use once the bug is fixed.

## Left out

- Floating point. Delays, lengths and percents are natural numbers, and `parseFloat` reads only the integral part. This has two visible consequences. First, a fractional setting below 1 (`"0.5"`, `".5"`) falls through to the default (600/90/1500/40/100) in the model, while JavaScript reads a truthy 0.5 and uses it. Second, a signed value such as `data-ty-progressLength="-5"` gives the default in the model, while JavaScript reads -5 and `repeat(-5)` then throws a RangeError (src/termynal.ts:362-367). The speed multiplier is 2^`speedExp`, and waits are exact rationals. The progress percent is exact rational rounding with halves rounded up, with no claim of bit-exact agreement with `Math.round` on doubles.
- JsString.ToNumber: the string-to-number conversion `percent > progressPercent` applies to an attribute string covers decimal numerals only (no exponents, signs or hex), and its contract states only the empty-string case.
- TermynalPlayback.LabelText: the label is defined for exponents 0..53 only, where JavaScript prints the multiplier as a whole number. Slowed-down labels such as `"0.5x"` are not modelled.
- String lengths count code points. JavaScript's `slice` and `indexOf` count UTF-16 units, so the two differ on characters outside the Basic Multilingual Plane.
- `setTimeout` and promise scheduling. Each wait is recorded on a virtual clock instead. Clicks during a run (speed changes mid-line), a second `init` overlapping a running one, and the console output are not modelled. Reports appear only as the `reported` and `warned` results.
- Layout. The `getComputedStyle` width and min-height copying in `init`, the `visibility` styles of the lines, the speed control and the restart link, and the `data-termynal` marker attribute are left out. The speed control's hidden state is kept as a flag.
- The HTML parser, serialiser and `camelCase` are an oracle (`Dom.Html`). The model assumes the parser's text content and first element, and states nothing about them beyond what the code relies on.
- TopBar.LinesToCopyText: `innerText` is taken to be the element's text; rendering differences between `innerText` and `textContent` are not modelled.
- TermynalEngine.Termynal.Type: the line's text is a flat string, so markup inside a typed line, which `textContent` flattens, is not kept.
- TermynalEngine.NewTermynal: a line markup that gives no element is an error result. The source goes on with a `null` element and throws a TypeError in `loadLines` when it sets that line's style (src/termynal.ts:168), before the `appendChild`. Hoisted markup always has an element, and a browser always finds the wrapping span, so only the parser oracle's freedom reaches this path.
- The `init()` of the TerminHTML class only calls the Termynal's `init`, which is `TermynalEngine.Termynal.Init`.
- `createTopBar`, the copy button and the clipboard, `src/bottom-bar/speed-control.ts`, `src/bottom-bar/restart.ts`, and the other widget builders build DOM elements and contain no logic. They are not part of this model, and neither are `src/lines/main.ts` and `src/lines/input.ts`, which only delegate to `lineDataToBasicElement`.
- The demo pages under `dev-src/` are not part of this model.
