/**
 * src/lines/base.ts: turning one LineData into an element, either by wrapping
 * its value in a span that carries `data-*` attributes, or by hoisting a value
 * that is already markup with relevant data attributes.
 */
module LinesBase {
  import opened Wrappers
  import opened JsString
  import opened Dom
  import opened DomUtils
  import opened LineRecords

  // ---------------------------------------------------------------------------
  // _attributes

  /** The attribute a single property contributes: none for value, type and undefined. */
  function PairFor(p: Prop, pfx: string): seq<(string, string)> {
    if p.key == "value" || p.key == "type" || p.val.Undefined? then []
    else [(pfx + "-" + p.key, ToText(p.val))]
  }

  /** The (name, value) pairs `_attributes` collects, in property order. */
  function AttrPairs(line: LineData, pfx: string): seq<(string, string)> {
    if line == [] then [] else AttrPairs(line[..|line| - 1], pfx) + PairFor(line[|line| - 1], pfx)
  }

  /** `name="value"`. */
  function FormatPair(pair: (string, string)): string {
    pair.0 + "=\"" + pair.1 + "\""
  }

  function FormatPairs(pairs: seq<(string, string)>): (r: seq<string>)
    ensures |r| == |pairs|
    ensures forall i :: 0 <= i < |pairs| ==> r[i] == FormatPair(pairs[i])
  {
    if pairs == [] then [] else [FormatPair(pairs[0])] + FormatPairs(pairs[1..])
  }

  /** The attribute string of a wrapped line: the bare type attribute first, then the data pairs. */
  function AttributesOf(line: LineData, pfx: string): string {
    Join(["data-ty=" + TypeOrEmpty(line)] + FormatPairs(AttrPairs(line, pfx)), " ")
  }

  /** _attributes: collect the pairs in a for-in loop, then format and join them. */
  method Attributes(line: LineData, pfx: string) returns (attrs: string)
    ensures attrs == AttributesOf(line, pfx)
  {
    var attrValuePairs: seq<(string, string)> := [];
    var i := 0;
    while i < |line|
      invariant 0 <= i <= |line|
      invariant attrValuePairs == AttrPairs(line[..i], pfx)
    {
      var prop := line[i];
      if prop.key != "value" && prop.key != "type" && !prop.val.Undefined? {
        attrValuePairs := attrValuePairs + [(pfx + "-" + prop.key, ToText(prop.val))];
      }
      assert line[..i + 1][..i] == line[..i];
      i := i + 1;
    }
    assert line[..i] == line;
    var valueForPlainPfxAttr := TypeOrEmpty(line);
    var attributesFromData := FormatPairs(attrValuePairs);
    attrs := Join(["data-ty=" + valueForPlainPfxAttr] + attributesFromData, " ");
  }

  /** A property is emitted as an attribute exactly when it is not value/type and is defined. */
  predicate Emits(p: Prop, pfx: string, pair: (string, string)) {
    p.key != "value" && p.key != "type" && !p.val.Undefined?
    && pair == (pfx + "-" + p.key, ToText(p.val))
  }

  /** The pairs are exactly those of the emitting properties. */
  lemma {:induction false} AttrPairsExact(line: LineData, pfx: string, pair: (string, string))
    ensures pair in AttrPairs(line, pfx) <==> exists i :: 0 <= i < |line| && Emits(line[i], pfx, pair)
  {
    if line != [] {
      var init := line[..|line| - 1];
      AttrPairsExact(init, pfx, pair);
      if exists i :: 0 <= i < |line| && Emits(line[i], pfx, pair) {
        var i :| 0 <= i < |line| && Emits(line[i], pfx, pair);
        if i < |line| - 1 {
          assert init[i] == line[i];
        }
      }
      if exists i :: 0 <= i < |init| && Emits(init[i], pfx, pair) {
        var i :| 0 <= i < |init| && Emits(init[i], pfx, pair);
        assert line[i] == init[i];
      }
    }
  }

  /** Pairs keep the order of the properties: the pairs of a concatenation concatenate. */
  lemma {:induction false} AttrPairsAppend(a: LineData, b: LineData, pfx: string)
    ensures AttrPairs(a + b, pfx) == AttrPairs(a, pfx) + AttrPairs(b, pfx)
    decreases |b|
  {
    if b == [] {
      assert a + b == a;
    } else {
      var b' := b[..|b| - 1];
      AttrPairsAppend(a, b', pfx);
      var last := b[|b| - 1];
      assert (a + b)[..|a + b| - 1] == a + b';
      assert (a + b)[|a + b| - 1] == last;
      assert AttrPairs(a + b, pfx) == AttrPairs(a + b', pfx) + PairFor(last, pfx);
      assert AttrPairs(b, pfx) == AttrPairs(b', pfx) + PairFor(last, pfx);
      var x, y, z := AttrPairs(a, pfx), AttrPairs(b', pfx), PairFor(last, pfx);
      assert (x + y) + z == x + (y + z);
    }
  }

  /** The attribute string always opens with the hard-coded `data-ty=` and the line's type. */
  lemma AttributesStartWithType(line: LineData, pfx: string)
    ensures StartsWith(AttributesOf(line, pfx), "data-ty=" + TypeOrEmpty(line))
  {
    var parts := ["data-ty=" + TypeOrEmpty(line)] + FormatPairs(AttrPairs(line, pfx));
    if |parts| > 1 {
      assert Join(parts, " ") == parts[0] + " " + Join(parts[1..], " ");
    }
  }

  // ---------------------------------------------------------------------------
  // _stringIsHTMLElementWithRelevantData

  ghost predicate AnyKeyStartsWith(keys: seq<string>, p: string) {
    exists j :: 0 <= j < |keys| && StartsWith(keys[j], p)
  }

  /** The string is markup whose first element has a dataset key starting with the camel-cased prefix. */
  ghost predicate HasRelevantData(s: string, prefix: string, html: Html) {
    StringHasHtmlElements(s)
    && html.firstElement(s).Some?
    && AnyKeyStartsWith(DatasetKeys(html.firstElement(s).value.attrs), html.camelCase(prefix))
  }

  /** Markup whose parse has no element, such as a lone closing tag: reported, and treated as irrelevant. */
  ghost predicate IncompleteMarkup(s: string, html: Html) {
    StringHasHtmlElements(s) && html.firstElement(s).None?
  }

  /**
   * _stringIsHTMLElementWithRelevantData: a search over the first element's
   * dataset keys; `warned` is the console warning for incomplete markup.
   */
  method StringIsHtmlElementWithRelevantData(s: string, prefix: string, html: Html)
    returns (relevant: bool, warned: bool)
    ensures relevant == HasRelevantData(s, prefix, html)
    ensures warned == IncompleteMarkup(s, html)
    ensures warned ==> !relevant
  {
    relevant, warned := false, false;
    if !StringHasHtmlElements(s) {
      return;
    }
    var element := html.firstElement(s);
    if element.None? {
      warned := true;
      return;
    }
    var camelCasePrefix := html.camelCase(prefix);
    var keys := DatasetKeys(element.value.attrs);
    var i := 0;
    while i < |keys|
      invariant 0 <= i <= |keys|
      invariant forall j :: 0 <= j < i ==> !StartsWith(keys[j], camelCasePrefix)
    {
      if StartsWith(keys[i], camelCasePrefix) {
        relevant := true;
        return;
      }
      i := i + 1;
    }
  }

  predicate IsLowerWord(p: string) {
    forall i :: 0 <= i < |p| ==> IsAsciiLowerLetter(p[i])
  }

  /** Some attribute is a data attribute whose name starts with "data-" + p. */
  ghost predicate SomeDataAttrStartsWith(attrs: seq<Attr>, p: string) {
    exists i :: 0 <= i < |attrs| && IsDataAttribute(attrs[i].name) && StartsWith(attrs[i].name, "data-" + p)
  }

  /** A dataset key of the attributes starts with `p` exactly when some data attribute's name does after "data-". */
  lemma {:induction false} DatasetKeysPrefix(attrs: seq<Attr>, p: string)
    requires IsLowerWord(p)
    ensures AnyKeyStartsWith(DatasetKeys(attrs), p) <==> SomeDataAttrStartsWith(attrs, p)
  {
    if attrs != [] {
      var n := attrs[0].name;
      var head := if IsDataAttribute(n) then [Camelize(n[5..])] else [];
      assert DatasetKeys(attrs) == head + DatasetKeys(attrs[1..]);
      DatasetKeysPrefix(attrs[1..], p);
      AnyKeyStartsWithConcat(head, DatasetKeys(attrs[1..]), p);
      HeadKeyPrefix(n, p);
      SomeDataAttrCons(attrs, p);
    }
  }

  lemma HeadKeyPrefix(n: string, p: string)
    requires IsLowerWord(p)
    ensures AnyKeyStartsWith(if IsDataAttribute(n) then [Camelize(n[5..])] else [], p)
        <==> IsDataAttribute(n) && StartsWith(n, "data-" + p)
  {
    if IsDataAttribute(n) {
      CamelizeKeepsLowerPrefix(n[5..], p);
      assert n == "data-" + n[5..];
      PrefixAfterCommon("data-", n[5..], p);
      assert [Camelize(n[5..])][0] == Camelize(n[5..]);
    }
  }

  lemma AnyKeyStartsWithConcat(a: seq<string>, b: seq<string>, p: string)
    ensures AnyKeyStartsWith(a + b, p) <==> AnyKeyStartsWith(a, p) || AnyKeyStartsWith(b, p)
  {
    if AnyKeyStartsWith(a, p) {
      var j :| 0 <= j < |a| && StartsWith(a[j], p);
      assert (a + b)[j] == a[j];
    }
    if AnyKeyStartsWith(b, p) {
      var j :| 0 <= j < |b| && StartsWith(b[j], p);
      assert (a + b)[j + |a|] == b[j];
    }
    if AnyKeyStartsWith(a + b, p) {
      var j :| 0 <= j < |a + b| && StartsWith((a + b)[j], p);
      if j >= |a| {
        assert b[j - |a|] == (a + b)[j];
      } else {
        assert a[j] == (a + b)[j];
      }
    }
  }

  lemma SomeDataAttrCons(attrs: seq<Attr>, p: string)
    requires attrs != []
    ensures SomeDataAttrStartsWith(attrs, p)
        <==> (IsDataAttribute(attrs[0].name) && StartsWith(attrs[0].name, "data-" + p))
             || SomeDataAttrStartsWith(attrs[1..], p)
  {
    if SomeDataAttrStartsWith(attrs[1..], p) {
      var i :| 0 <= i < |attrs[1..]| && IsDataAttribute(attrs[1..][i].name) && StartsWith(attrs[1..][i].name, "data-" + p);
      assert attrs[i + 1] == attrs[1..][i];
    }
    if SomeDataAttrStartsWith(attrs, p) {
      var i :| 0 <= i < |attrs| && IsDataAttribute(attrs[i].name) && StartsWith(attrs[i].name, "data-" + p);
      if i > 0 {
        assert attrs[1..][i - 1] == attrs[i];
      }
    }
  }

  lemma PrefixAfterCommon(c: string, x: string, p: string)
    ensures StartsWith(c + x, c + p) <==> StartsWith(x, p)
  {
    if StartsWith(c + x, c + p) {
      assert p == (c + p)[|c|..] && x[..|p|] == (c + x)[|c|..|c| + |p|];
    }
    if StartsWith(x, p) {
      assert (c + x)[..|c + p|] == c + x[..|p|];
    }
  }

  /**
   * For a lower-case prefix that camelCase leaves alone (the default "ty"), a
   * value is relevant exactly when its first element has a `data-` attribute
   * whose name starts with "data-" + prefix.
   */
  lemma RelevantIffPrefixedDataAttribute(s: string, prefix: string, html: Html)
    requires IsLowerWord(prefix) && html.camelCase(prefix) == prefix
    requires StringHasHtmlElements(s) && html.firstElement(s).Some?
    ensures var e := html.firstElement(s).value;
      HasRelevantData(s, prefix, html)
      <==> exists i :: 0 <= i < |e.attrs| && IsDataAttribute(e.attrs[i].name) && StartsWith(e.attrs[i].name, "data-" + prefix)
  {
    DatasetKeysPrefix(html.firstElement(s).value.attrs, prefix);
  }

  // ---------------------------------------------------------------------------
  // lineDataToBasicElement

  /** `<span ${attrs}>${body}</span>`. */
  function WrapInSpan(attrs: string, body: string): string {
    "<span " + attrs + ">" + body + "</span>"
  }

  /** The markup lineDataToBasicElement assigns to its scratch div. */
  ghost function BasicMarkup(line: LineData, customPfx: string, html: Html): string {
    var useValue := ValueOrEmpty(line);
    if HasRelevantData(useValue, customPfx, html) then useValue
    else WrapInSpan(AttributesOf(line, "data-" + customPfx), useValue)
  }

  /**
   * lineDataToBasicElement: the first element of the hoisted value or of the
   * attributed span (`warned` is the incomplete-markup warning).
   */
  method LineDataToBasicElement(line: LineData, customPfx: string, html: Html)
    returns (element: Option<Element>, warned: bool)
    ensures element == html.firstElement(BasicMarkup(line, customPfx, html))
    ensures warned == IncompleteMarkup(ValueOrEmpty(line), html)
  {
    var pfx := "data-" + customPfx;
    var useValue := ValueOrEmpty(line);
    var relevant;
    relevant, warned := StringIsHtmlElementWithRelevantData(useValue, customPfx, html);
    var markup;
    if relevant {
      markup := useValue;
    } else {
      var attrs := Attributes(line, pfx);
      markup := WrapInSpan(attrs, useValue);
    }
    element := html.firstElement(markup);
  }

  /** Plain text (and a missing value, read as "") is wrapped in a span opening with `data-ty=`. */
  lemma PlainValueIsWrapped(line: LineData, customPfx: string, html: Html)
    requires !StringHasHtmlElements(ValueOrEmpty(line))
    ensures BasicMarkup(line, customPfx, html) == WrapInSpan(AttributesOf(line, "data-" + customPfx), ValueOrEmpty(line))
    ensures StartsWith(BasicMarkup(line, customPfx, html), "<span data-ty=" + TypeOrEmpty(line))
  {
    AttributesStartWithType(line, "data-" + customPfx);
    WrapKeepsPrefix(AttributesOf(line, "data-" + customPfx), ValueOrEmpty(line), TypeOrEmpty(line));
  }

  /** A span whose attributes open with `data-ty=<t>` opens with `<span data-ty=<t>`. */
  lemma WrapKeepsPrefix(attrs: string, body: string, t: string)
    requires StartsWith(attrs, "data-ty=" + t)
    ensures StartsWith(WrapInSpan(attrs, body), "<span data-ty=" + t)
  {
    var p := "data-ty=" + t;
    assert WrapInSpan(attrs, body) == "<span " + attrs + (">" + body + "</span>");
    assert "<span " + p == "<span data-ty=" + t;
    assert ("<span " + attrs + (">" + body + "</span>"))[..|"<span " + p|] == "<span " + p;
  }

  /** Markup with relevant data is hoisted unchanged, keeping all its attributes. */
  lemma RelevantMarkupIsHoisted(line: LineData, customPfx: string, html: Html)
    requires HasRelevantData(ValueOrEmpty(line), customPfx, html)
    ensures BasicMarkup(line, customPfx, html) == ValueOrEmpty(line)
    ensures html.firstElement(BasicMarkup(line, customPfx, html)) == html.firstElement(ValueOrEmpty(line))
  {
  }

  /** Markup without relevant data, incomplete markup included, becomes the span's inner HTML verbatim. */
  lemma IrrelevantMarkupIsWrapped(line: LineData, customPfx: string, html: Html)
    requires !HasRelevantData(ValueOrEmpty(line), customPfx, html)
    ensures var m := BasicMarkup(line, customPfx, html);
      var open := "<span " + AttributesOf(line, "data-" + customPfx) + ">";
      StartsWith(m, open) && m[|open|..] == ValueOrEmpty(line) + "</span>"
  {
    assert BasicMarkup(line, customPfx, html) == WrapInSpan(AttributesOf(line, "data-" + customPfx), ValueOrEmpty(line));
    WrapSplits(AttributesOf(line, "data-" + customPfx), ValueOrEmpty(line));
  }

  /** A span is its opening tag followed by its body and the closing tag. */
  lemma WrapSplits(attrs: string, body: string)
    ensures var open := "<span " + attrs + ">";
      StartsWith(WrapInSpan(attrs, body), open) && WrapInSpan(attrs, body)[|open|..] == body + "</span>"
  {
    var open := "<span " + attrs + ">";
    assert WrapInSpan(attrs, body) == open + (body + "</span>");
  }

  /** With the default prefix, an attribute such as `data-type` already counts as relevant data. */
  lemma DataTypeAttributeIsRelevant(s: string, html: Html, e: Element)
    requires StringHasHtmlElements(s) && html.firstElement(s) == Some(e)
    requires html.camelCase("ty") == "ty"
    requires e.attrs == [Attr("data-type", "x")]
    ensures HasRelevantData(s, "ty", html)
  {
    assert IsLowerWord("ty");
    DatasetKeysPrefix(e.attrs, "ty");
    assert IsDataAttribute(e.attrs[0].name) && StartsWith(e.attrs[0].name, "data-" + "ty");
  }
}
