/**
 * src/termynal.ts, the pure parts of the Termynal constructor: its options,
 * the `a || parseFloat(attr) || default` resolution of its settings, the
 * `_attributes` string and `lineDataToElements`.
 */
module TermynalConfig {
  import opened Wrappers
  import opened JsString
  import opened Dom
  import opened LineRecords
  import opened LinesBase

  /** `TermynalOptions`: every field optional (None when left out). */
  datatype TermynalOptions = TermynalOptions(
    prefix: Option<string>,
    startDelay: Option<nat>,
    typeDelay: Option<nat>,
    lineDelay: Option<nat>,
    progressLength: Option<nat>,
    progressChar: Option<string>,
    progressPercent: Option<nat>,
    cursor: Option<string>,
    lineData: Option<seq<LineData>>,
    noInit: Option<bool>,
    autoScroll: Option<bool>)

  /** The settings a Termynal fixes at construction. */
  datatype Config = Config(
    customPfx: string,
    pfx: string,
    originalStartDelay: nat,
    originalTypeDelay: nat,
    originalLineDelay: nat,
    progressLength: nat,
    progressChar: string,
    progressPercent: nat,
    cursor: string,
    origAutoScroll: bool)

  const DefaultStartDelay: nat := 600
  const DefaultTypeDelay: nat := 90
  const DefaultLineDelay: nat := 1500
  const DefaultProgressLength: nat := 40
  const DefaultProgressPercent: nat := 100
  /** U+2588 FULL BLOCK. */
  const DefaultProgressChar := "\U{2588}"
  /** U+258B LEFT FIVE EIGHTHS BLOCK. */
  const DefaultCursor := "\U{258B}"

  // ---------------------------------------------------------------------------
  // Resolution

  /**
   * `option || parseFloat(attr ?? "") || default`: an option of 0 and an
   * attribute that parses to 0 or NaN fall through to the next source.
   */
  function NumberOr(option: Option<nat>, attr: Option<string>, default: nat): (r: nat)
    ensures option.Some? && option.value != 0 ==> r == option.value
    ensures !(option.Some? && option.value != 0) && ParseFloat(attr.GetOr("")).Truthy() ==> r == ParseFloat(attr.GetOr("")).n
    ensures !(option.Some? && option.value != 0) && !ParseFloat(attr.GetOr("")).Truthy() ==> r == default
    ensures default > 0 ==> r > 0
  {
    if option.Some? && option.value != 0 then option.value
    else
      var parsed := ParseFloat(attr.GetOr(""));
      if parsed.Truthy() then parsed.n else default
  }

  /** `option || attr || default` on strings: the empty string falls through. */
  function TextOr(option: Option<string>, attr: Option<string>, default: string): (r: string)
    ensures option.Some? && option.value != "" ==> r == option.value
    ensures !(option.Some? && option.value != "") && attr.Some? && attr.value != "" ==> r == attr.value
    ensures !(option.Some? && option.value != "") && !(attr.Some? && attr.value != "") ==> r == default
    ensures default != "" ==> r != ""
  {
    if option.Some? && option.value != "" then option.value
    else if attr.Some? && attr.value != "" then attr.value
    else default
  }

  /** getAttribute on the container. */
  function HostAttribute(hostAttrs: seq<Attr>, name: string): Option<string> {
    Lookup(hostAttrs, AsciiLower(name))
  }

  /** The constructor's settings, from the options and the container's attributes. */
  function ResolveConfig(options: TermynalOptions, hostAttrs: seq<Attr>): (c: Config)
    ensures c.customPfx == options.prefix.GetOr("ty") && c.pfx == "data-" + c.customPfx
    ensures c.originalStartDelay > 0 && c.originalTypeDelay > 0 && c.originalLineDelay > 0
    ensures c.progressLength > 0 && c.progressPercent > 0 && c.progressChar != "" && c.cursor != ""
    ensures c.origAutoScroll == options.autoScroll.GetOr(true)
  {
    var customPfx := options.prefix.GetOr("ty");
    var pfx := "data-" + customPfx;
    Config(
      customPfx, pfx,
      NumberOr(options.startDelay, HostAttribute(hostAttrs, pfx + "-startDelay"), DefaultStartDelay),
      NumberOr(options.typeDelay, HostAttribute(hostAttrs, pfx + "-typeDelay"), DefaultTypeDelay),
      NumberOr(options.lineDelay, HostAttribute(hostAttrs, pfx + "-lineDelay"), DefaultLineDelay),
      NumberOr(options.progressLength, HostAttribute(hostAttrs, pfx + "-progressLength"), DefaultProgressLength),
      TextOr(options.progressChar, HostAttribute(hostAttrs, pfx + "-progressChar"), DefaultProgressChar),
      NumberOr(options.progressPercent, HostAttribute(hostAttrs, pfx + "-progressPercent"), DefaultProgressPercent),
      TextOr(options.cursor, HostAttribute(hostAttrs, pfx + "-cursor"), DefaultCursor),
      options.autoScroll.GetOr(true))
  }

  /** An option of 0 and an attribute without digits both fall through to the default. */
  lemma ZeroAndNaNFallThrough()
    ensures NumberOr(Some(0), None, DefaultStartDelay) == 600
    ensures NumberOr(None, Some("fast"), DefaultTypeDelay) == 90
    ensures NumberOr(Some(0), Some("0"), DefaultLineDelay) == 1500
  {
    assert !IsJsWhitespace('f') && !IsDigit('f');
    assert TrimStart("fast") == "fast";
    assert LeadingDigits("fast") == 0;
    ParseFloatOfNumeral(0);
    assert NatToString(0) == "0";
  }

  /** A numeric container attribute is used when the option is missing, and the option wins over it. */
  lemma AttributeThenOption(n: nat, m: nat)
    requires n > 0 && m > 0
    ensures NumberOr(None, Some(NatToString(n)), DefaultLineDelay) == n
    ensures NumberOr(Some(m), Some(NatToString(n)), DefaultLineDelay) == m
  {
    ParseFloatOfNumeral(n);
  }

  // ---------------------------------------------------------------------------
  // _attributes

  /** What `_attributes` appends after the prefix for one property. */
  function PieceAfterPrefix(p: Prop): string {
    if p.key == "type" then "=\"" + ToText(p.val) + "\" "
    else if p.key != "value" then "-" + p.key + "=\"" + ToText(p.val) + "\" "
    else ""
  }

  /**
   * `_attributes` as written: the prefix is appended for EVERY property,
   * before the test that skips `value`, so a value property leaves a bare
   * prefix glued to the next attribute's name.
   */
  function TermynalAttributesAsWritten(line: LineData, pfx: string): string {
    if line == [] then ""
    else TermynalAttributesAsWritten(line[..|line| - 1], pfx) + pfx + PieceAfterPrefix(line[|line| - 1])
  }

  /** `_attributes` as intended: a value property contributes nothing. */
  function TermynalAttributesOf(line: LineData, pfx: string): string {
    if line == [] then ""
    else
      TermynalAttributesOf(line[..|line| - 1], pfx)
      + (if line[|line| - 1].key == "value" then "" else pfx + PieceAfterPrefix(line[|line| - 1]))
  }

  /** The number of `value` properties. */
  function ValueCount(line: LineData): nat {
    if line == [] then 0
    else ValueCount(line[..|line| - 1]) + (if line[|line| - 1].key == "value" then 1 else 0)
  }

  /** Without a value property, the code as written gives the intended string. */
  lemma {:induction false} AsWrittenAgreesWithoutValue(line: LineData, pfx: string)
    requires ValueCount(line) == 0
    ensures TermynalAttributesAsWritten(line, pfx) == TermynalAttributesOf(line, pfx)
  {
    if line != [] {
      AsWrittenAgreesWithoutValue(line[..|line| - 1], pfx);
    }
  }

  /** The code as written emits one stray prefix per value property. */
  lemma {:induction false} AsWrittenHasStrayPrefixes(line: LineData, pfx: string)
    ensures |TermynalAttributesAsWritten(line, pfx)| == |TermynalAttributesOf(line, pfx)| + ValueCount(line) * |pfx|
  {
    if line != [] {
      var init, last := line[..|line| - 1], line[|line| - 1];
      AsWrittenHasStrayPrefixes(init, pfx);
      var w, c, k := TermynalAttributesAsWritten(init, pfx), TermynalAttributesOf(init, pfx), ValueCount(init);
      var piece := PieceAfterPrefix(last);
      assert |TermynalAttributesAsWritten(line, pfx)| == |w| + |pfx| + |piece|;
      if last.key == "value" {
        assert |TermynalAttributesOf(line, pfx)| == |c| + 0 && |piece| == 0;
        assert ValueCount(line) == k + 1;
        MulSucc(k, |pfx|);
      } else {
        assert |TermynalAttributesOf(line, pfx)| == |c| + |pfx| + |piece|;
        assert ValueCount(line) == k;
      }
    }
  }

  lemma MulPositive(k: nat, n: nat)
    requires k > 0 && n > 0
    ensures k * n > 0
  {
  }

  lemma MulSucc(k: nat, n: nat)
    ensures (k + 1) * n == k * n + n
  {
  }

  /** As written, the result equals the intended one exactly when the line has no value property. */
  lemma AsWrittenCorrectIff(line: LineData, pfx: string)
    requires pfx != ""
    ensures TermynalAttributesAsWritten(line, pfx) == TermynalAttributesOf(line, pfx) <==> ValueCount(line) == 0
  {
    AsWrittenHasStrayPrefixes(line, pfx);
    if ValueCount(line) == 0 {
      AsWrittenAgreesWithoutValue(line, pfx);
    } else {
      MulPositive(ValueCount(line), |pfx|);
    }
  }

  /**
   * The entry the classifier makes for a plain custom-prompt line: as written
   * the prompt lands in an attribute named pfx + pfx + "-prompt" (with the
   * default prefix, "data-tydata-ty-prompt"), so the line has no
   * pfx + "-prompt" attribute; the intended string has it.
   */
  lemma CustomPromptIsGlued(pfx: string)
    ensures var line := [Prop("type", Str("input")), Prop("value", Str("ls")), Prop("prompt", Str("% "))];
      TermynalAttributesAsWritten(line, pfx) == pfx + "=\"input\" " + pfx + pfx + "-prompt=\"% \" "
      && TermynalAttributesOf(line, pfx) == pfx + "=\"input\" " + pfx + "-prompt=\"% \" "
  {
    var a, b, c := Prop("type", Str("input")), Prop("value", Str("ls")), Prop("prompt", Str("% "));
    assert PieceAfterPrefix(a) == "=\"input\" ";
    assert PieceAfterPrefix(c) == "-prompt=\"% \" ";
    ValueBetween(a, b, c, pfx);
  }

  /** A value property between two others: as written it leaves one bare prefix between theirs. */
  lemma ValueBetween(a: Prop, b: Prop, c: Prop, pfx: string)
    requires a.key != "value" && b.key == "value" && c.key != "value"
    ensures TermynalAttributesAsWritten([a, b, c], pfx) == pfx + PieceAfterPrefix(a) + pfx + pfx + PieceAfterPrefix(c)
    ensures TermynalAttributesOf([a, b, c], pfx) == pfx + PieceAfterPrefix(a) + pfx + PieceAfterPrefix(c)
  {
    var pa, pc := PieceAfterPrefix(a), PieceAfterPrefix(c);
    assert PieceAfterPrefix(b) == "";
    SnocSteps([], a, pfx);
    assert [] + [a] == [a];
    var w1, o1 := TermynalAttributesAsWritten([a], pfx), TermynalAttributesOf([a], pfx);
    assert w1 == pfx + pa && o1 == pfx + pa;
    SnocSteps([a], b, pfx);
    assert [a] + [b] == [a, b];
    var w2, o2 := TermynalAttributesAsWritten([a, b], pfx), TermynalAttributesOf([a, b], pfx);
    assert w2 == w1 + pfx && o2 == o1;
    SnocSteps([a, b], c, pfx);
    assert [a, b] + [c] == [a, b, c];
    assert TermynalAttributesAsWritten([a, b, c], pfx) == w2 + pfx + pc;
    assert TermynalAttributesOf([a, b, c], pfx) == o2 + (pfx + pc);
  }

  /**
   * A value property first, as the classifier's entries have it: as written
   * the next property's attribute name is glued to a bare prefix.
   */
  lemma ValueFirst(a: Prop, b: Prop, c: Prop, pfx: string)
    requires a.key == "value"
    ensures TermynalAttributesAsWritten([a, b, c], pfx) == pfx + pfx + PieceAfterPrefix(b) + pfx + PieceAfterPrefix(c)
  {
    var pb, pc := PieceAfterPrefix(b), PieceAfterPrefix(c);
    assert PieceAfterPrefix(a) == "";
    SnocSteps([], a, pfx);
    assert [] + [a] == [a];
    var w1 := TermynalAttributesAsWritten([a], pfx);
    assert w1 == pfx;
    SnocSteps([a], b, pfx);
    assert [a] + [b] == [a, b];
    var w2 := TermynalAttributesAsWritten([a, b], pfx);
    assert w2 == w1 + pfx + pb;
    SnocSteps([a, b], c, pfx);
    assert [a, b] + [c] == [a, b, c];
    assert TermynalAttributesAsWritten([a, b, c], pfx) == w2 + pfx + pc;
  }

  /** One more property: both strings grow by what that property contributes. */
  lemma SnocSteps(init: LineData, p: Prop, pfx: string)
    ensures TermynalAttributesAsWritten(init + [p], pfx) == TermynalAttributesAsWritten(init, pfx) + pfx + PieceAfterPrefix(p)
    ensures TermynalAttributesOf(init + [p], pfx)
      == TermynalAttributesOf(init, pfx) + (if p.key == "value" then "" else pfx + PieceAfterPrefix(p))
  {
    assert (init + [p])[..|init|] == init;
  }

  /** The attribute one non-value property gets: the bare prefix for type, prefix-key otherwise. */
  function AttrFor(p: Prop, pfx: string): (string, string) {
    (if p.key == "type" then pfx else pfx + "-" + p.key, ToText(p.val))
  }

  /** The attributes of the intended string, in property order. */
  function TermynalAttrs(line: LineData, pfx: string): seq<(string, string)> {
    if line == [] then []
    else
      TermynalAttrs(line[..|line| - 1], pfx)
      + (if line[|line| - 1].key == "value" then [] else [AttrFor(line[|line| - 1], pfx)])
  }

  /** `name="value" `. */
  function FormatAttr(a: (string, string)): string {
    a.0 + "=\"" + a.1 + "\" "
  }

  function ConcatFormatted(attrs: seq<(string, string)>): string {
    if attrs == [] then "" else ConcatFormatted(attrs[..|attrs| - 1]) + FormatAttr(attrs[|attrs| - 1])
  }

  /** The intended string is its attributes written one after another, each `name="value" `. */
  lemma {:induction false} TermynalAttributesConcat(line: LineData, pfx: string)
    ensures TermynalAttributesOf(line, pfx) == ConcatFormatted(TermynalAttrs(line, pfx))
  {
    if line != [] {
      var init := line[..|line| - 1];
      TermynalAttributesConcat(init, pfx);
      var last := line[|line| - 1];
      var attrs := TermynalAttrs(line, pfx);
      if last.key != "value" {
        assert attrs == TermynalAttrs(init, pfx) + [AttrFor(last, pfx)];
        assert attrs[..|attrs| - 1] == TermynalAttrs(init, pfx);
        assert ConcatFormatted(attrs) == ConcatFormatted(TermynalAttrs(init, pfx)) + FormatAttr(AttrFor(last, pfx));
        FormatAttrFor(last, pfx);
      } else {
        assert attrs == TermynalAttrs(init, pfx);
        assert TermynalAttributesOf(line, pfx) == TermynalAttributesOf(init, pfx);
      }
    }
  }

  /** A non-value property's formatted attribute is the prefix followed by its piece. */
  lemma FormatAttrFor(p: Prop, pfx: string)
    requires p.key != "value"
    ensures FormatAttr(AttrFor(p, pfx)) == pfx + PieceAfterPrefix(p)
  {
    var v := "=\"" + ToText(p.val) + "\" ";
    if p.key == "type" {
      assert FormatAttr(AttrFor(p, pfx)) == pfx + v;
    } else {
      assert FormatAttr(AttrFor(p, pfx)) == pfx + "-" + p.key + v;
      assert PieceAfterPrefix(p) == "-" + p.key + v;
    }
  }

  /**
   * An attribute is in the intended string exactly when a non-value property
   * asks for it: value and only value is left out, an undefined property
   * included (it prints as "undefined").
   */
  lemma {:induction false} TermynalAttrsExact(line: LineData, pfx: string, a: (string, string))
    ensures a in TermynalAttrs(line, pfx) <==> exists i :: 0 <= i < |line| && line[i].key != "value" && AttrFor(line[i], pfx) == a
  {
    if line != [] {
      var init := line[..|line| - 1];
      TermynalAttrsExact(init, pfx, a);
      if exists i :: 0 <= i < |line| && line[i].key != "value" && AttrFor(line[i], pfx) == a {
        var i :| 0 <= i < |line| && line[i].key != "value" && AttrFor(line[i], pfx) == a;
        if i < |line| - 1 {
          assert init[i] == line[i];
        }
      }
      if exists i :: 0 <= i < |init| && init[i].key != "value" && AttrFor(init[i], pfx) == a {
        var i :| 0 <= i < |init| && init[i].key != "value" && AttrFor(init[i], pfx) == a;
        assert line[i] == init[i];
      }
    }
  }

  /**
   * _attributes as the code runs it: the prefix is appended for every
   * property, `value` included, before the branches on the property's name.
   */
  method AttributesAsWritten(line: LineData, pfx: string) returns (attrs: string)
    ensures attrs == TermynalAttributesAsWritten(line, pfx)
  {
    attrs := "";
    var i := 0;
    while i < |line|
      invariant 0 <= i <= |line|
      invariant attrs == TermynalAttributesAsWritten(line[..i], pfx)
    {
      var prop := line[i];
      attrs := attrs + pfx;
      if prop.key == "type" {
        attrs := attrs + ("=\"" + ToText(prop.val) + "\" ");
      } else if prop.key != "value" {
        attrs := attrs + ("-" + prop.key + "=\"" + ToText(prop.val) + "\" ");
      }
      assert line[..i + 1][..i] == line[..i];
      i := i + 1;
    }
    assert line[..i] == line;
  }

  /** _attributes as intended: the prefix is appended only for the properties it describes. */
  method TermynalAttributes(line: LineData, pfx: string) returns (attrs: string)
    ensures attrs == TermynalAttributesOf(line, pfx)
  {
    attrs := "";
    var i := 0;
    while i < |line|
      invariant 0 <= i <= |line|
      invariant attrs == TermynalAttributesOf(line[..i], pfx)
    {
      var prop := line[i];
      if prop.key != "value" {
        attrs := attrs + pfx;
        if prop.key == "type" {
          attrs := attrs + ("=\"" + ToText(prop.val) + "\" ");
        } else {
          attrs := attrs + ("-" + prop.key + "=\"" + ToText(prop.val) + "\" ");
        }
      }
      AttributesOfStep(line, i, pfx);
      i := i + 1;
    }
    assert line[..i] == line;
  }

  lemma AttributesOfStep(line: LineData, i: nat, pfx: string)
    requires i < |line|
    ensures TermynalAttributesOf(line[..i + 1], pfx)
      == if line[i].key == "value" then TermynalAttributesOf(line[..i], pfx)
         else TermynalAttributesOf(line[..i], pfx) + pfx + PieceAfterPrefix(line[i])
  {
    assert line[..i + 1][..i] == line[..i];
  }

  // ---------------------------------------------------------------------------
  // lineDataToElements

  /**
   * The markup `lineDataToElements` assigns to its scratch div for one entry;
   * the span's attributes are those `_attributes` produces as written.
   */
  ghost function TermynalMarkup(line: LineData, customPfx: string, html: Html): string {
    var useValue := ValueOrEmpty(line);
    if HasRelevantData(useValue, customPfx, html) then useValue
    else WrapInSpan(TermynalAttributesAsWritten(line, "data-" + customPfx), useValue)
  }

  /**
   * lineDataToElements: one first element per entry, in order (None where the
   * markup has no element, which the constructor cannot go on from).
   */
  method LineDataToElements(lineData: seq<LineData>, customPfx: string, html: Html)
    returns (elements: seq<Option<Element>>)
    ensures |elements| == |lineData|
    ensures forall i :: 0 <= i < |lineData| ==> elements[i] == html.firstElement(TermynalMarkup(lineData[i], customPfx, html))
  {
    elements := [];
    var i := 0;
    while i < |lineData|
      invariant 0 <= i <= |lineData| && |elements| == i
      invariant forall j :: 0 <= j < i ==> elements[j] == html.firstElement(TermynalMarkup(lineData[j], customPfx, html))
    {
      var line := lineData[i];
      var useValue := ValueOrEmpty(line);
      var relevant, _ := StringIsHtmlElementWithRelevantData(useValue, customPfx, html);
      var markup;
      if relevant {
        markup := useValue;
      } else {
        var attrs := AttributesAsWritten(line, "data-" + customPfx);
        markup := WrapInSpan(attrs, useValue);
      }
      elements := elements + [html.firstElement(markup)];
      i := i + 1;
    }
  }
}
